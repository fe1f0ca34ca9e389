/** The copy-on-write layer as a value: an untouched real tree, the private
    overlay and the tombstones, with the merged view it stands for. */
module Layering {
  import opened FileTree

  datatype Layer = Layer(base: Tree, overlay: Tree, tombstones: set<Path>)

  /** The path or one of its ancestors carries a tombstone. */
  predicate Hidden(tombstones: set<Path>, p: Path)
    decreases |p|
  {
    p in tombstones || (p != [] && Hidden(tombstones, Parent(p)))
  }

  /** What the user sees: the overlay entry, else the real one unless hidden. */
  function View(l: Layer): Tree {
    map p | p in l.overlay.Keys + l.base.Keys && (p in l.overlay || !Hidden(l.tombstones, p)) ::
      if p in l.overlay then l.overlay[p] else l.base[p]
  }

  lemma Looks(l: Layer, p: Path)
    ensures p in View(l) <==> p in l.overlay || (p in l.base && !Hidden(l.tombstones, p))
    ensures p in l.overlay ==> View(l)[p] == l.overlay[p]
    ensures p in View(l) && p !in l.overlay ==> View(l)[p] == l.base[p]
  {}

  ghost predicate Valid(l: Layer) {
    && WellFormed(l.base)
    && WellFormed(l.overlay)
    && (forall p :: p in l.overlay ==> !Hidden(l.tombstones, p))
    // a real directory that was removed, or that an overlay file replaced,
    // has lost each of its real children
    && (forall c :: c in l.base && c != []
          && (Parent(c) in l.tombstones || IsFile(l.overlay, Parent(c)))
          ==> c in l.tombstones)
    // nothing is ever created or deleted below a real file, even one that was
    // unlinked and replaced by a directory
    && (forall p :: p in l.overlay.Keys + l.tombstones && p != [] ==> !IsFile(l.base, Parent(p)))
  }

  lemma {:induction false} HiddenBelow(tombstones: set<Path>, c: Path, q: Path)
    requires c in tombstones && c <= q
    ensures Hidden(tombstones, q)
    decreases |q|
  {
    if c != q {
      assert c <= Parent(q);
      HiddenBelow(tombstones, c, Parent(q));
    }
  }

  lemma {:induction false} HiddenAfterAdd(tombstones: set<Path>, p: Path, q: Path)
    ensures Hidden(tombstones + {p}, q) <==> Hidden(tombstones, q) || p <= q
    decreases |q|
  {
    if q == p {
    } else if q != [] {
      HiddenAfterAdd(tombstones, p, Parent(q));
      if p <= q { assert p <= Parent(q); }
      if p <= Parent(q) { assert p <= q; }
    }
  }

  lemma {:induction false} HiddenAfterClear(tombstones: set<Path>, p: Path, q: Path)
    ensures Hidden(tombstones - {p}, q) ==> Hidden(tombstones, q)
    ensures !(p <= q) && Hidden(tombstones, q) ==> Hidden(tombstones - {p}, q)
    decreases |q|
  {
    if q != [] {
      HiddenAfterClear(tombstones, p, Parent(q));
    }
  }

  /** A tree that holds something below p holds a child of p on the way to it. */
  lemma ChildOnTheWay(t: Tree, p: Path, q: Path) returns (c: Path)
    requires WellFormed(t) && q in t && p <= q && p != q
    ensures c in t && c != [] && Parent(c) == p && c <= q
  {
    c := q[..|p| + 1];
    if |c| < |q| { PrefixIsDir(t, q, |c|); } else { assert c == q; }
  }

  /** If each real child of p is tombstoned, all that is real below p is hidden,
      whatever tombstone p itself carries. */
  lemma BelowIsHidden(base: Tree, tombstones: set<Path>, p: Path, q: Path)
    requires WellFormed(base) && q in base && p <= q && p != q
    requires forall c :: c in base && c != [] && Parent(c) == p ==> c in tombstones
    ensures Hidden(tombstones, q) && Hidden(tombstones - {p}, q)
  {
    var c := ChildOnTheWay(base, p, q);
    HiddenBelow(tombstones, c, q);
    HiddenBelow(tombstones - {p}, c, q);
  }

  /** The merged view is itself a tree. */
  lemma ViewIsTree(l: Layer)
    requires Valid(l)
    ensures WellFormed(View(l))
  {
    var v := View(l);
    forall p | p in v && p != [] ensures IsDir(v, Parent(p)) {
      if p !in l.overlay {
        assert IsDir(l.base, Parent(p));
        assert !Hidden(l.tombstones, Parent(p));
      }
    }
  }

  /** Proper, non-root prefixes of p. */
  function Ancestors(p: Path): set<Path> {
    set k | 0 < k < |p| :: p[..k]
  }

  function Materialized(overlay: Tree, p: Path): Tree {
    overlay + map q | q in Ancestors(p) - overlay.Keys :: Dir
  }

  lemma AncestorsAreVisible(l: Layer, p: Path)
    requires Valid(l) && p != [] && IsDir(View(l), Parent(p))
    ensures forall q :: q in Ancestors(p) ==>
              && q != [] && (Parent(q) == [] || Parent(q) in Ancestors(p))
              && (if q in l.overlay then l.overlay[q].Dir?
                  else IsDir(l.base, q) && !Hidden(l.tombstones, q))
    ensures Parent(p) == [] || Parent(p) in Ancestors(p)
  {
    ViewIsTree(l);
    forall q | q in Ancestors(p)
      ensures q != [] && IsDir(View(l), q) && (Parent(q) == [] || Parent(q) in Ancestors(p))
    {
      var k :| 0 < k < |p| && q == p[..k];
      assert Parent(q) == p[..k - 1];
      if k < |p| - 1 {
        PrefixIsDir(View(l), Parent(p), k);
        assert Parent(p)[..k] == p[..k];
      }
    }
  }

  /** Materialising the parents of a path in a visible directory shows nothing new. */
  lemma MaterializeKeepsView(l: Layer, p: Path)
    requires Valid(l) && p != [] && IsDir(View(l), Parent(p))
    ensures var m := l.(overlay := Materialized(l.overlay, p));
            Valid(m) && View(m) == View(l) && IsDir(m.overlay, Parent(p))
            && (p in m.overlay <==> p in l.overlay)
  {
    MaterializeIsValid(l, p);
    AncestorsAreVisible(l, p);
    assert View(l.(overlay := Materialized(l.overlay, p))) == View(l);
  }

  lemma MaterializeIsValid(l: Layer, p: Path)
    requires Valid(l) && p != [] && IsDir(View(l), Parent(p))
    ensures Valid(l.(overlay := Materialized(l.overlay, p)))
    ensures IsDir(Materialized(l.overlay, p), Parent(p))
  {
    hide View;
    var m := l.(overlay := Materialized(l.overlay, p));
    AncestorsAreVisible(l, p);
    forall q | q in m.overlay ensures !Hidden(l.tombstones, q) {}
    forall q | q in m.overlay && q != []
      ensures IsDir(m.overlay, Parent(q)) && !IsFile(l.base, Parent(q))
    {
      if q !in l.overlay { assert IsDir(l.base, q); }
    }
    forall c | c in l.base && c != [] && IsFile(m.overlay, Parent(c)) ensures c in l.tombstones {
      assert IsFile(l.overlay, Parent(c));
    }
  }

  /** The real directory at p, if there is one and p is not a visible directory,
      has lost its children. */
  lemma GoneDirIsEmpty(l: Layer, p: Path)
    requires Valid(l) && p != [] && IsDir(View(l), Parent(p)) && !IsDir(View(l), p)
    ensures forall c :: c in l.base && c != [] && Parent(c) == p ==> c in l.tombstones
  {
    forall c | c in l.base && c != [] && Parent(c) == p ensures c in l.tombstones {
      assert IsDir(l.base, p);
      if p !in l.overlay {
        assert Hidden(l.tombstones, p) && !Hidden(l.tombstones, Parent(p));
      }
    }
  }

  /** Creating or overwriting a candidate whose tombstone was cleared is an
      assignment to the view. */
  lemma InstallAssignsView(l: Layer, p: Path, n: Node)
    requires Valid(l) && p != [] && IsDir(l.overlay, Parent(p))
    requires !IsDir(View(l), p) && (n.Dir? ==> p !in View(l))
    requires !IsFile(l.base, Parent(p))
    ensures var m := l.(overlay := l.overlay[p := n], tombstones := l.tombstones - {p});
            Valid(m) && View(m) == View(l)[p := n]
  {
    var m := l.(overlay := l.overlay[p := n], tombstones := l.tombstones - {p});
    InstallKeepsTree(l, p, n);
    InstallKeepsTombstones(l, p, n);
    assert View(m) == View(l)[p := n] by { InstallHidesTheSame(l, p); }
  }

  lemma InstallHidesTheSame(l: Layer, p: Path)
    requires Valid(l) && p != [] && IsDir(View(l), Parent(p)) && !IsDir(View(l), p)
    ensures forall q :: q in l.base && q != p ==>
              (Hidden(l.tombstones - {p}, q) <==> Hidden(l.tombstones, q))
  {
    GoneDirIsEmpty(l, p);
    forall q | q in l.base && q != p
      ensures Hidden(l.tombstones - {p}, q) <==> Hidden(l.tombstones, q)
    {
      HiddenAfterClear(l.tombstones, p, q);
      if p <= q { BelowIsHidden(l.base, l.tombstones, p, q); }
    }
  }

  lemma InstallKeepsTombstones(l: Layer, p: Path, n: Node)
    requires Valid(l) && p != [] && IsDir(l.overlay, Parent(p)) && !IsDir(View(l), p)
    ensures forall c :: c in l.base && c != []
              && (Parent(c) in l.tombstones - {p} || IsFile(l.overlay[p := n], Parent(c)))
              ==> c in l.tombstones - {p}
  {
    GoneDirIsEmpty(l, p);
    assert !Hidden(l.tombstones, Parent(p));
    forall c | c in l.base && c != []
      && (Parent(c) in l.tombstones - {p} || IsFile(l.overlay[p := n], Parent(c)))
      ensures c in l.tombstones - {p}
    {
      if c == p {
        assert false;
      }
    }
  }

  lemma InstallKeepsTree(l: Layer, p: Path, n: Node)
    requires Valid(l) && p != [] && IsDir(l.overlay, Parent(p)) && !IsDir(View(l), p)
    ensures WellFormed(l.overlay[p := n])
    ensures forall q :: q in l.overlay[p := n] ==> !Hidden(l.tombstones - {p}, q)
  {
    var overlay := l.overlay[p := n];
    assert p in l.overlay ==> p in View(l) && !IsDir(l.overlay, p);
    forall q | q in overlay && q != [] ensures IsDir(overlay, Parent(q)) {}
    forall q | q in overlay ensures !Hidden(l.tombstones - {p}, q) {
      HiddenAfterClear(l.tombstones, p, q);
      if q == p {
        HiddenAfterClear(l.tombstones, p, Parent(p));
        assert !Hidden(l.tombstones, Parent(p));
      }
    }
  }

  /** Clearing the tombstone of a path that is then not created brings back the
      real node, if there was one. */
  lemma ClearedTombstone(l: Layer, p: Path)
    requires Valid(l) && p != [] && IsDir(View(l), Parent(p)) && p !in View(l)
    ensures var m := l.(tombstones := l.tombstones - {p});
            && Valid(m)
            && View(m) == if p in l.base then View(l)[p := l.base[p]] else View(l)
  {
    var m := l.(tombstones := l.tombstones - {p});
    InstallHidesTheSame(l, p);
    forall q ensures Hidden(m.tombstones, q) ==> Hidden(l.tombstones, q) {
      HiddenAfterClear(l.tombstones, p, q);
    }
    HiddenAfterClear(l.tombstones, p, Parent(p));
    assert !Hidden(l.tombstones, Parent(p));
    assert !Hidden(m.tombstones, p);
    assert View(m) == if p in l.base then View(l)[p := l.base[p]] else View(l);
  }

  /** Deleting p, once nothing below it is visible, removes exactly p from the view. */
  lemma RemoveShrinksView(l: Layer, p: Path)
    requires Valid(l) && p != [] && IsDir(View(l), Parent(p))
    requires !IsFile(l.base, Parent(p))
    requires forall c :: c in l.overlay && c != [] ==> Parent(c) != p
    requires forall c :: c in l.base && c != [] && Parent(c) == p ==> c in l.tombstones
    ensures var m := l.(overlay := l.overlay - {p}, tombstones := l.tombstones + {p});
            Valid(m) && View(m) == View(l) - {p}
  {
    RemoveIsValid(l, p);
    forall q ensures Hidden(l.tombstones + {p}, q) <==> Hidden(l.tombstones, q) || p <= q {
      HiddenAfterAdd(l.tombstones, p, q);
    }
    forall q | q in l.base && p <= q && q != p ensures Hidden(l.tombstones, q) {
      BelowIsHidden(l.base, l.tombstones, p, q);
    }
    NothingInOverlayBelow(l.overlay, p);
    assert View(l.(overlay := l.overlay - {p}, tombstones := l.tombstones + {p})) == View(l) - {p};
  }

  lemma NothingInOverlayBelow(overlay: Tree, p: Path)
    requires WellFormed(overlay)
    requires forall c :: c in overlay && c != [] ==> Parent(c) != p
    ensures forall q :: q in overlay && p <= q ==> q == p
  {
    forall q | q in overlay && p <= q ensures q == p {
      if q != p { var _ := ChildOnTheWay(overlay, p, q); }
    }
  }

  lemma RemoveIsValid(l: Layer, p: Path)
    requires Valid(l) && p != [] && !IsFile(l.base, Parent(p))
    requires forall c :: c in l.overlay && c != [] ==> Parent(c) != p
    requires forall c :: c in l.base && c != [] && Parent(c) == p ==> c in l.tombstones
    ensures Valid(l.(overlay := l.overlay - {p}, tombstones := l.tombstones + {p}))
  {
    var m := l.(overlay := l.overlay - {p}, tombstones := l.tombstones + {p});
    NothingInOverlayBelow(l.overlay, p);
    assert WellFormed(m.overlay);
    forall q | q in m.overlay ensures !Hidden(m.tombstones, q) {
      HiddenAfterAdd(l.tombstones, p, q);
    }
    forall c | c in l.base && c != [] && (Parent(c) in m.tombstones || IsFile(m.overlay, Parent(c)))
      ensures c in m.tombstones
    {
      assert Parent(c) == p || Parent(c) in l.tombstones || IsFile(l.overlay, Parent(c));
    }
  }

  lemma {:induction false} NothingHidden(p: Path)
    ensures !Hidden({}, p)
    decreases |p|
  {
    if p != [] { NothingHidden(Parent(p)); }
  }

  /** A fresh layer shows the real tree. */
  lemma FreshView(base: Tree)
    requires WellFormed(base)
    ensures var l := Layer(base, map[[] := Dir], {}); Valid(l) && View(l) == base
  {
    forall p ensures !Hidden({}, p) { NothingHidden(p); }
    assert View(Layer(base, map[[] := Dir], {})) == base;
  }

  /** The visible subtree at p, copied into the overlay. */
  function CopiedUp(l: Layer, p: Path): Tree {
    var v := View(l);
    l.overlay + map q | q in v.Keys && p <= q :: v[q]
  }

  lemma CopyUpKeepsView(l: Layer, p: Path)
    requires Valid(l) && p != [] && IsDir(l.overlay, Parent(p)) && p in View(l)
    ensures var m := l.(overlay := CopiedUp(l, p)); Valid(m) && View(m) == View(l)
    ensures CopiedUp(l, p)[p] == View(l)[p]
    ensures forall q :: q in l.overlay ==> q in CopiedUp(l, p) && CopiedUp(l, p)[q] == l.overlay[q]
    ensures IsDir(CopiedUp(l, p), Parent(p))
    ensures IsFile(View(l), p) ==> CopiedUp(l, p) == l.overlay[p := View(l)[p]]
  {
    ViewIsTree(l);
    CopyUpShowsTheSame(l, p);
    CopyUpIsValid(l, p);
    hide View;
    if IsFile(View(l), p) {
      FileHasNoSubtree(View(l), p);
      assert CopiedUp(l, p) == l.overlay[p := View(l)[p]];
    }
  }

  lemma CopyUpShowsTheSame(l: Layer, p: Path)
    ensures View(l.(overlay := CopiedUp(l, p))) == View(l)
    ensures forall q :: q in CopiedUp(l, p) ==> q in View(l) && CopiedUp(l, p)[q] == View(l)[q]
    ensures forall q :: q in l.overlay ==> q in View(l) && View(l)[q] == l.overlay[q]
  {}

  lemma FileHasNoSubtree(t: Tree, p: Path)
    requires WellFormed(t) && IsFile(t, p)
    ensures forall q :: q in t && p <= q ==> q == p
  {
    forall q | q in t && p <= q ensures q == p {
      if q != p { assert q[..|p|] == p; PrefixIsDir(t, q, |p|); }
    }
  }

  lemma CopyUpIsValid(l: Layer, p: Path)
    requires Valid(l) && p != [] && IsDir(l.overlay, Parent(p)) && p in View(l)
    requires WellFormed(View(l))
    ensures Valid(l.(overlay := CopiedUp(l, p)))
  {
    var v, overlay := View(l), CopiedUp(l, p);
    CopyUpShowsTheSame(l, p);
    forall q | q in overlay && q !in l.overlay
      ensures q in l.base && !Hidden(l.tombstones, q) && overlay[q] == l.base[q]
    { Looks(l, q); }
    hide View;
    forall q | q in overlay && q != [] ensures IsDir(overlay, Parent(q)) {
      if q in v && p <= q && q != p { assert p <= Parent(q); }
    }
    forall q | q in overlay && q != [] ensures !IsFile(l.base, Parent(q)) {}
    forall c | c in l.base && c != [] && IsFile(overlay, Parent(c)) ensures c in l.tombstones {
      assert IsFile(l.overlay, Parent(c));
    }
  }

  lemma OverlayChildIsVisible(l: Layer, p: Path)
    requires Children(l.overlay, p) != {}
    ensures Children(View(l), p) != {}
  {
    var n :| n in Children(l.overlay, p);
    ChildName(l.overlay, p, n);
    ChildName(View(l), p, n);
  }

  lemma NotBelowFile(l: Layer, p: Path)
    requires Valid(l) && p in l.overlay && p != []
    ensures !IsFile(l.base, Parent(p))
  {}

  lemma NothingBelowFile(l: Layer, p: Path)
    requires Valid(l) && p != [] && IsFile(l.base, Parent(p))
    ensures p !in View(l)
  {}

  lemma RealParent(l: Layer, p: Path)
    requires Valid(l) && p in l.base && p != []
    ensures IsDir(l.base, Parent(p))
  {}

  lemma NoChild(t: Tree, p: Path)
    requires Children(t, p) == {}
    ensures forall c :: c in t && c != [] ==> Parent(c) != p
  {
    forall c | c in t && c != [] ensures Parent(c) != p {
      var n := c[|c| - 1];
      ChildName(t, Parent(c), n);
      assert Parent(c) + [n] == c;
    }
  }

  lemma PrefixesIn(t: Tree, p: Path)
    requires WellFormed(t) && p in t
    ensures forall q :: q <= p ==> q in t
  {
    forall q | q <= p ensures q in t {
      if |q| < |p| { PrefixIsDir(t, p, |q|); assert p[..|q|] == q; } else { assert q == p; }
    }
  }

  /** Removing an empty overlay directory uncovers the real node below it. */
  lemma DroppedCandidate(l: Layer, p: Path)
    requires Valid(l) && p != [] && IsDir(l.overlay, p) && Children(l.overlay, p) == {}
    ensures var m := l.(overlay := l.overlay - {p});
            && Valid(m)
            && View(m) == if p in l.base then View(l)[p := l.base[p]] else View(l) - {p}
    ensures !IsDir(l.base, p) ==> Children(View(l), p) == {}
  {
    DroppedIsValid(l, p);
    DroppedView(l, p);
    if !IsDir(l.base, p) { NoVisibleChild(l, p); }
  }

  lemma NoVisibleChild(l: Layer, p: Path)
    requires WellFormed(l.base) && !IsDir(l.base, p) && Children(l.overlay, p) == {}
    ensures Children(View(l), p) == {}
  {
    forall n ensures n !in Children(View(l), p) {
      ChildName(View(l), p, n);
      ChildName(l.overlay, p, n);
      assert Parent(p + [n]) == p;
    }
  }

  lemma DroppedIsValid(l: Layer, p: Path)
    requires Valid(l) && p != [] && IsDir(l.overlay, p) && Children(l.overlay, p) == {}
    ensures Valid(l.(overlay := l.overlay - {p})) && !Hidden(l.tombstones, p)
  {
    NoChild(l.overlay, p);
    var m := l.(overlay := l.overlay - {p});
    forall q | q in m.overlay && q != [] ensures IsDir(m.overlay, Parent(q)) {}
    forall q | q in m.overlay ensures !Hidden(l.tombstones, q) {}
    forall c | c in m.base && c != [] && (Parent(c) in m.tombstones || IsFile(m.overlay, Parent(c)))
      ensures c in m.tombstones
    {
      assert Parent(c) in l.tombstones || IsFile(l.overlay, Parent(c));
    }
  }

  lemma DroppedView(l: Layer, p: Path)
    requires p in l.overlay && !Hidden(l.tombstones, p)
    ensures View(l.(overlay := l.overlay - {p})) ==
              if p in l.base then View(l)[p := l.base[p]] else View(l) - {p}
  {}

  lemma EmptyDirGoes(l: Layer, p: Path)
    requires Valid(l) && p != [] && IsDir(View(l), Parent(p)) && IsDir(View(l), p)
    requires Children(View(l), p) == {} && !IsFile(l.base, p) && !IsFile(l.base, Parent(p))
    ensures var m := l.(overlay := l.overlay - {p}, tombstones := l.tombstones + {p});
            Valid(m) && View(m) == View(l) - {p}
  {
    NoChild(View(l), p);
    assert !Hidden(l.tombstones, p);
    RemoveShrinksView(l, p);
  }

  /** The raw rename of a prepared source onto a prepared target. */
  lemma MovedView(l: Layer, source: Path, target: Path)
    requires Valid(l) && source != [] && IsFile(l.overlay, source) && IsDir(View(l), Parent(source))
    requires target != [] && target != source && !IsDir(View(l), target)
    requires IsDir(l.overlay, Parent(target)) && !IsFile(l.base, Parent(target))
    ensures var m := Layer(l.base, l.overlay[target := l.overlay[source]] - {source},
                           l.tombstones - {target} + {source});
            Valid(m) && View(m) == View(l)[target := l.overlay[source]] - {source}
  {
    var n := l.overlay[source];
    var k := l.(overlay := l.overlay[target := n], tombstones := l.tombstones - {target});
    InstallAssignsView(l, target, n);
    GoneDirIsEmpty(k, source);
    RemoveShrinksView(k, source);
  }

  /** A file written over a container directory is seen in its place; what is below the
      directory stays visible. */
  lemma WrittenOverDir(l: Layer, p: Path, n: Node)
    requires Valid(l) && p in View(l)
    ensures l.tombstones - {p} == l.tombstones
    ensures View(l.(overlay := l.overlay[p := n])) == View(l)[p := n]
  {
    hide View, Valid;
    var m := l.(overlay := l.overlay[p := n]);
    Looks(l, p);
    ShownIsNotHidden(l, p);
    forall q
      ensures q in View(m) <==> q in View(l)[p := n]
      ensures q in View(m) ==> View(m)[q] == View(l)[p := n][q]
    {
      Looks(m, q);
      Looks(l, q);
    }
    assert View(m) == View(l)[p := n];
  }

  lemma ShownIsNotHidden(l: Layer, p: Path)
    requires Valid(l) && p in View(l)
    ensures !Hidden(l.tombstones, p)
  {}

  /** An unlinked container directory goes with all that is below it. */
  lemma SubtreeGoes(l: Layer, p: Path)
    requires Valid(l) && p in View(l) && p !in l.overlay
    ensures View(l.(tombstones := l.tombstones + {p})) == WithoutSubtree(View(l), p)
  {
    forall q ensures Hidden(l.tombstones + {p}, q) <==> Hidden(l.tombstones, q) || p <= q {
      HiddenAfterAdd(l.tombstones, p, q);
    }
    forall q | q in l.overlay ensures !(p <= q) {
      PrefixesIn(l.overlay, q);
    }
    assert View(l.(tombstones := l.tombstones + {p})) == WithoutSubtree(View(l), p);
  }

  /** The raw rename of a prepared source onto a container directory. */
  lemma MovedOverDir(l: Layer, source: Path, target: Path)
    requires Valid(l) && IsFile(l.overlay, source) && target in View(l) && target != source
    ensures var m := Layer(l.base, l.overlay[target := l.overlay[source]] - {source},
                           l.tombstones - {target} + {source});
            View(m) == View(l)[target := l.overlay[source]] - {source}
  {
    var n := l.overlay[source];
    var k := l.(overlay := l.overlay[target := n]);
    WrittenOverDir(l, target, n);
    forall q | q in l.base && source <= q && q != source ensures Hidden(l.tombstones, q) {
      BelowIsHidden(l.base, l.tombstones, source, q);
    }
    hide View, Valid;
    FileGoes(k, source);
  }

  /** Taking a path out of the overlay under a tombstone, when nothing real below it shows. */
  lemma FileGoes(l: Layer, p: Path)
    requires forall q :: q in l.base && p <= q && q != p ==> Hidden(l.tombstones, q)
    ensures View(l.(overlay := l.overlay - {p}, tombstones := l.tombstones + {p})) == View(l) - {p}
  {
    hide View;
    var m := l.(overlay := l.overlay - {p}, tombstones := l.tombstones + {p});
    forall q
      ensures q in View(m) <==> q in View(l) - {p}
      ensures q in View(m) ==> View(m)[q] == (View(l) - {p})[q]
    {
      Looks(m, q);
      Looks(l, q);
      HiddenAfterAdd(l.tombstones, p, q);
    }
    assert View(m) == View(l) - {p};
  }

  /** In a visible directory, the real filesystem reports ENOTDIR for a missing
      path just when the parent is a real file. */
  lemma {:induction false} AbsentBelowVisible(l: Layer, p: Path)
    requires Valid(l) && p != [] && p !in l.base && IsDir(View(l), Parent(p))
    ensures Absent(l.base, p) == if IsFile(l.base, Parent(p)) then ENOTDIR else ENOENT
    decreases |p|
  {
    var q := Parent(p);
    if q !in l.base {
      ViewIsTree(l);
      AbsentBelowVisible(l, q);
    }
  }

  /** A call the layer is meant for: it acts below "/" in a visible directory,
      and a move starts from something other than a directory. */
  predicate Placed(v: Tree, op: Op) {
    && op.path != [] && IsDir(v, Parent(op.path))
    && (op.Rename? || op.Replace? ==>
          && op.target != [] && op.target != op.path && IsDir(v, Parent(op.target))
          && !IsDir(v, op.path))
  }

  /** Exactly when the layer answers a placed call as a plain tree would. */
  predicate Faithful(l: Layer, op: Op)
    requires op.path != [] && (op.Rename? || op.Replace? ==> op.target != [])
  {
    var v, p := View(l), op.path;
    && !IsFile(l.base, Parent(p))
    && match op
       case Write(_, _) => IsDir(v, p) ==> p in l.overlay
       case Update(_, _) => p in v || p !in l.base
       case Truncate(_, _) => p in v || p !in l.base
       case Touch(_) => p in v || p !in l.base
       case Unlink(_) => (IsDir(v, p) ==> p in l.overlay) && (p in v || p !in l.base)
       case Rmdir(_) => !(IsDir(v, p) && Children(v, p) == {} && IsFile(l.base, p))
       case Rename(_, target) => p in v ==> !IsFile(l.base, Parent(target)) && target !in v
       case Replace(_, target) =>
         p in v ==> !IsFile(l.base, Parent(target)) && (IsDir(v, target) ==> target in l.overlay || target <= p)
       case _ => true
  }

  /** Enough for it, from the visible tree and the container's own files alone. */
  predicate Safe(base: Tree, v: Tree, op: Op)
    requires op.path != [] && (op.Rename? || op.Replace? ==> op.target != [])
  {
    var p := op.path;
    && !IsFile(base, Parent(p))
    && match op
       case Write(_, _) => !IsDir(v, p)
       case Update(_, _) => p in v || p !in base
       case Truncate(_, _) => p in v || p !in base
       case Touch(_) => p in v || p !in base
       case Unlink(_) => !IsDir(v, p) && (p in v || p !in base)
       case Rmdir(_) => !(IsDir(v, p) && Children(v, p) == {} && IsFile(base, p))
       case Rename(_, target) => !IsFile(base, Parent(target)) && target !in v
       case Replace(_, target) => !IsFile(base, Parent(target)) && !IsDir(v, target)
       case _ => true
  }

  /** Every call of the run is placed and safe where it happens. */
  predicate SafeRun(base: Tree, v: Tree, ops: seq<Op>)
    decreases |ops|
  {
    ops == [] || (Placed(v, ops[0]) && Safe(base, v, ops[0])
                  && SafeRun(base, Plain(v, ops[0]).0, ops[1..]))
  }

  lemma SafeIsFaithful(l: Layer, op: Op)
    requires Valid(l) && Placed(View(l), op) && Safe(l.base, View(l), op)
    ensures Faithful(l, op)
  {}
}
