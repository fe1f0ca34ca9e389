/** Lexicographic order and sorting, as Python orders tuples and strings. */
module Sorting {
  ghost predicate TotalOrder<T(!new)>(le: (T, T) -> bool) {
    && (forall a, b :: le(a, b) || le(b, a))
    && (forall a, b :: le(a, b) && le(b, a) ==> a == b)
    && (forall a, b, c :: le(a, b) && le(b, c) ==> le(a, c))
  }

  predicate Lex<T(==)>(le: (T, T) -> bool, a: seq<T>, b: seq<T>) {
    a == [] || (b != [] && (if a[0] == b[0] then Lex(le, a[1..], b[1..]) else le(a[0], b[0])))
  }

  function LexOrder<T(==)>(le: (T, T) -> bool): (seq<T>, seq<T>) -> bool {
    (a: seq<T>, b: seq<T>) => Lex(le, a, b)
  }

  lemma {:induction false} LexTotal<T(!new)>(le: (T, T) -> bool, a: seq<T>, b: seq<T>)
    requires TotalOrder(le)
    ensures Lex(le, a, b) || Lex(le, b, a)
    ensures Lex(le, a, b) && Lex(le, b, a) ==> a == b
  {
    if a != [] && b != [] {
      LexTotal(le, a[1..], b[1..]);
      if a[0] == b[0] && a[1..] == b[1..] { assert a == [a[0]] + a[1..] && b == [b[0]] + b[1..]; }
    }
  }

  lemma {:induction false} LexTransitive<T(!new)>(le: (T, T) -> bool, a: seq<T>, b: seq<T>, c: seq<T>)
    requires TotalOrder(le) && Lex(le, a, b) && Lex(le, b, c)
    ensures Lex(le, a, c)
  {
    if a != [] && a[0] == b[0] && b[0] == c[0] { LexTransitive(le, a[1..], b[1..], c[1..]); }
  }

  /** Ordering sequences by a total order on their elements is a total order. */
  lemma LexIsTotal<T(!new)>(le: (T, T) -> bool)
    requires TotalOrder(le)
    ensures TotalOrder(LexOrder(le))
  {
    forall a: seq<T>, b: seq<T>
      ensures Lex(le, a, b) || Lex(le, b, a)
      ensures Lex(le, a, b) && Lex(le, b, a) ==> a == b
    { LexTotal(le, a, b); }
    forall a: seq<T>, b: seq<T>, c: seq<T> | Lex(le, a, b) && Lex(le, b, c) ensures Lex(le, a, c) {
      LexTransitive(le, a, b, c);
    }
  }

  ghost predicate Ascending<T>(le: (T, T) -> bool, s: seq<T>) {
    forall i, j :: 0 <= i < j < |s| ==> le(s[i], s[j])
  }

  function Insert<T>(le: (T, T) -> bool, x: T, s: seq<T>): seq<T> {
    if s == [] || le(x, s[0]) then [x] + s else [s[0]] + Insert(le, x, s[1..])
  }

  function Sort<T>(le: (T, T) -> bool, s: seq<T>): seq<T> {
    if s == [] then [] else Insert(le, s[0], Sort(le, s[1..]))
  }

  lemma {:induction false} InsertHolds<T(!new)>(le: (T, T) -> bool, x: T, s: seq<T>)
    ensures multiset(Insert(le, x, s)) == multiset(s) + multiset{x}
  {
    if s != [] && !le(x, s[0]) {
      Rest(s);
      InsertHolds(le, x, s[1..]);
    }
  }

  lemma {:induction false} InsertAscends<T(!new)>(le: (T, T) -> bool, x: T, s: seq<T>)
    requires TotalOrder(le) && Ascending(le, s)
    ensures Ascending(le, Insert(le, x, s))
  {
    if s != [] && le(x, s[0]) {
      BelowAll(le, x, s);
      Prepended(le, x, s);
    } else if s != [] {
      assert le(s[0], x);
      InsertAscends(le, x, s[1..]);
      InsertedIn(le, x, s[1..]);
      Prepended(le, s[0], Insert(le, x, s[1..]));
    }
  }

  lemma InsertedIn<T(!new)>(le: (T, T) -> bool, x: T, s: seq<T>)
    ensures forall y :: y in Insert(le, x, s) ==> y == x || y in s
  {
    InsertHolds(le, x, s);
    assert forall y :: y in Insert(le, x, s) ==> y in multiset(Insert(le, x, s));
  }

  lemma BelowAll<T(!new)>(le: (T, T) -> bool, x: T, s: seq<T>)
    requires TotalOrder(le) && Ascending(le, s) && s != [] && le(x, s[0])
    ensures forall y :: y in s ==> le(x, y)
  {
    forall y | y in s ensures le(x, y) {
      var j :| 0 <= j < |s| && s[j] == y;
      if j > 0 { assert le(s[0], s[j]); }
    }
  }

  lemma Prepended<T>(le: (T, T) -> bool, x: T, s: seq<T>)
    requires Ascending(le, s) && forall y :: y in s ==> le(x, y)
    ensures Ascending(le, [x] + s)
  {}

  lemma {:induction false} SortSorts<T(!new)>(le: (T, T) -> bool, s: seq<T>)
    requires TotalOrder(le)
    ensures multiset(Sort(le, s)) == multiset(s) && Ascending(le, Sort(le, s))
  {
    if s != [] {
      assert s == [s[0]] + s[1..];
      SortSorts(le, s[1..]);
      InsertHolds(le, s[0], Sort(le, s[1..]));
      InsertAscends(le, s[0], Sort(le, s[1..]));
    }
  }

  lemma FirstIsLeast<T>(le: (T, T) -> bool, s: seq<T>, x: T)
    requires Ascending(le, s) && x in s
    ensures x == s[0] || le(s[0], x)
  {}

  /** There is only one ascending arrangement. */
  lemma {:induction false} OneArrangement<T(!new)>(le: (T, T) -> bool, a: seq<T>, b: seq<T>)
    requires TotalOrder(le) && Ascending(le, a) && Ascending(le, b) && multiset(a) == multiset(b)
    ensures a == b
    decreases |a|
  {
    assert |a| == |multiset(a)| && |b| == |multiset(b)|;
    if a != [] {
      SameFirst(le, a, b);
      Rest(a);
      Rest(b);
      assert Ascending(le, a[1..]) && Ascending(le, b[1..]);
      hide TotalOrder, Ascending;
      OneArrangement(le, a[1..], b[1..]);
    }
  }

  lemma SameFirst<T(!new)>(le: (T, T) -> bool, a: seq<T>, b: seq<T>)
    requires TotalOrder(le) && Ascending(le, a) && Ascending(le, b)
    requires a != [] && b != [] && multiset(a) == multiset(b)
    ensures a[0] == b[0]
  {
    assert a[0] in multiset(b) && b[0] in multiset(a);
    FirstIsLeast(le, a, b[0]);
    FirstIsLeast(le, b, a[0]);
  }

  lemma Rest<T>(s: seq<T>)
    requires s != []
    ensures s == [s[0]] + s[1..] && multiset(s[1..]) == multiset(s) - multiset{s[0]}
  {
    assert s == [s[0]] + s[1..];
  }

  function Elems<T>(s: seq<T>): set<T> { set x | x in s }

  /** Without repetitions a sequence is as good as a set. */
  lemma {:induction false} DistinctMultiset<T>(s: seq<T>)
    requires forall i, j :: 0 <= i < j < |s| ==> s[i] != s[j]
    ensures multiset(s) == multiset(Elems(s))
  {
    if s != [] {
      DistinctMultiset(s[1..]);
      Rest(s);
      assert Elems(s) == Elems(s[1..]) + {s[0]} && s[0] !in Elems(s[1..]);
    }
  }

  /** Comparing sorted copies compares contents. */
  lemma SortedEqual<T(!new)>(le: (T, T) -> bool, a: seq<T>, b: seq<T>)
    requires TotalOrder(le)
    ensures Sort(le, a) == Sort(le, b) <==> multiset(a) == multiset(b)
  {
    SortSorts(le, a);
    SortSorts(le, b);
    if multiset(a) == multiset(b) { OneArrangement(le, Sort(le, a), Sort(le, b)); }
  }

  predicate CharLe(a: char, b: char) { a <= b }

  lemma CharsOrdered()
    ensures TotalOrder(CharLe)
  {}
}
