/** Attribute filtering and limits at the Runner's boundary. */
module Attributes {
  import Quota

  type Attrs = map<string, string>

  const MAX_ATTRIBUTES := 128
  const MAX_ATTRIBUTE_BYTES := 64 * 1024

  function Filter(values: Attrs, allowed: seq<string>): Attrs {
    if allowed == [] then map[]
    else map k | k in values && k in allowed :: values[k]
  }

  /** A filtered set of attributes is all that later filters, and lookups of allowed
      names, can see. */
  lemma FilterKeepsAllowed(values: Attrs, allowed: seq<string>, k: string)
    ensures k in Filter(values, allowed) <==> k in values && k in allowed
    ensures k in Filter(values, allowed) ==> Filter(values, allowed)[k] == values[k]
    ensures Filter(Filter(values, allowed), allowed) == Filter(values, allowed)
  {}

  /** Two requests look the same to a release exactly when they agree on what it declares. */
  lemma SameToRelease(a: Attrs, b: Attrs, allowed: seq<string>)
    ensures Filter(a, allowed) == Filter(b, allowed) <==>
            forall k :: k in allowed ==> (k in a <==> k in b) && (k in a ==> a[k] == b[k])
  {
    if Filter(a, allowed) == Filter(b, allowed) {
      forall k | k in allowed ensures (k in a <==> k in b) && (k in a ==> a[k] == b[k]) {
        FilterKeepsAllowed(a, allowed, k);
        FilterKeepsAllowed(b, allowed, k);
      }
    }
  }

  /** Bytes of a string in UTF-8. */
  function Utf8Size(s: string): nat {
    if s == [] then 0
    else (if s[0] as int < 0x80 then 1 else if s[0] as int < 0x800 then 2
          else if s[0] as int < 0x1_0000 then 3 else 4) + Utf8Size(s[1..])
  }

  function Power(n: nat): nat { if n == 0 then 1 else 2 * Power(n - 1) }

  /** How many code points n bytes of UTF-8 can tell apart: 7 bits in one byte, else 6 in
      each following byte and 7 - n in the first. */
  function Capacity(n: nat): nat
    requires 1 <= n <= 4
  {
    if n == 1 then Power(7) else Power(6 * (n - 1) + 7 - n)
  }

  /** Each character takes as few bytes as can hold it, and texts add up. */
  lemma {:induction false} Utf8SizeIsLeast(c: char, a: string, b: string)
    ensures 1 <= Utf8Size([c]) <= 4 && c as int < Capacity(Utf8Size([c]))
    ensures forall n :: 1 <= n < Utf8Size([c]) ==> Capacity(n) <= c as int
    ensures Utf8Size(a + b) == Utf8Size(a) + Utf8Size(b)
  {
    assert Power(7) == 0x80 && Power(11) == 0x800 && Power(16) == 0x1_0000 && Power(21) == 0x20_0000;
    if a == [] {
      assert a + b == b;
    } else {
      assert (a + b)[1..] == a[1..] + b;
      Utf8SizeIsLeast(c, a[1..], b);
    }
  }

  function Sizes(values: Attrs): map<string, int> {
    map k | k in values :: Utf8Size(k) + Utf8Size(values[k])
  }

  datatype Verdict = Accepted | TooManyAttributes | AttributesTooLarge

  ghost predicate WithinLimits(values: Attrs) {
    |values| <= MAX_ATTRIBUTES && Quota.Total(Sizes(values), values.Keys) <= MAX_ATTRIBUTE_BYTES
  }

  /** Both limits, whatever the order of counting. */
  method Validate(values: Attrs) returns (verdict: Verdict)
    ensures verdict == TooManyAttributes <==> |values| > MAX_ATTRIBUTES
    ensures verdict == Accepted <==> WithinLimits(values)
  {
    if |values| > MAX_ATTRIBUTES { return TooManyAttributes; }
    var total, left := 0, values.Keys;
    while left != {}
      invariant left <= values.Keys
      invariant total + Quota.Total(Sizes(values), left) == Quota.Total(Sizes(values), values.Keys)
      decreases left
    {
      var key :| key in left;
      Quota.TotalTakesOut(Sizes(values), left, key);
      total := total + Utf8Size(key) + Utf8Size(values[key]);
      left := left - {key};
    }
    verdict := if total > MAX_ATTRIBUTE_BYTES then AttributesTooLarge else Accepted;
  }
}
