/** The filesystem layer object installed in the worker's child process. */
module Overlay {
  import opened FileTree
  import opened Layering

  /** A failed edit of a missing path uncovers the real node at that path. */
  function AfterFailedEdit(base: Tree, v: Tree, p: Path, outcome: Outcome): Tree {
    if outcome == Failed(ENOENT) && p in base then v[p := base[p]] else v
  }

  /** What an unlink leaves. */
  lemma Removed(l: Layer, p: Path)
    requires Valid(l) && p != [] && IsDir(View(l), Parent(p)) && !IsFile(l.base, Parent(p)) && !IsDir(l.overlay, p)
    ensures var m := l.(overlay := l.overlay - {p}, tombstones := l.tombstones + {p});
            && (!IsDir(View(l), p) ==> Valid(m) && View(m) == View(l) - {p})
            && (IsDir(View(l), p) ==> View(m) == WithoutSubtree(View(l), p))
  {
    if IsDir(View(l), p) {
      assert l.overlay - {p} == l.overlay;
      SubtreeGoes(l, p);
    } else {
      GoneDirIsEmpty(l, p);
      RemoveShrinksView(l, p);
    }
  }

  /** Looking the path up as a directory meets a file. */
  predicate BelowFile(t: Tree, p: Path) {
    if p in t then t[p].File? else Absent(t, p) == ENOTDIR
  }

  /** A path present in the overlay has no tombstone of its own. */
  lemma NoTombstoneToClear(l: Layer, p: Path)
    requires Valid(l) && p in l.overlay
    ensures l.tombstones - {p} == l.tombstones
  {
    assert !Hidden(l.tombstones, p);
  }

  /** Nothing visible stands below a real file. */
  lemma {:induction false} AbsentNotShown(l: Layer, p: Path)
    requires Valid(l) && p !in l.base && Absent(l.base, p) == ENOTDIR
    ensures p !in View(l)
    decreases |p|
  {
    if p in l.overlay && Parent(p) !in l.base {
      AbsentNotShown(l, Parent(p));
    }
  }

  lemma {:induction false} BelowOverlayFile(l: Layer, p: Path)
    requires Valid(l) && p !in l.overlay && Absent(l.overlay, p) == ENOTDIR
    ensures p !in View(l)
    decreases |p|
  {
    ViewIsTree(l);
    if Parent(p) !in l.overlay { BelowOverlayFile(l, Parent(p)); }
  }

  lemma ListingIsChildren(l: Layer, d: Path, names: set<Name>)
    requires Valid(l) && d in View(l) && (d in l.base ==> l.base[d].Dir?)
    requires d in l.overlay ==> l.overlay[d].Dir?
    requires forall n :: n in names <==>
               || (n in Children(l.base, d) && !Hidden(l.tombstones, d + [n]))
               || (d in l.overlay && n in Children(l.overlay, d))
    ensures names == Children(View(l), d)
  {
    forall n ensures n in names <==> n in Children(View(l), d) {
      ChildName(View(l), d, n);
      ChildName(l.base, d, n);
      ChildName(l.overlay, d, n);
      assert Parent(d + [n]) == d;
    }
  }

  lemma MaterializeOne(overlay: Tree, p: Path, k: nat)
    requires 0 < k < |p|
    ensures Materialized(overlay, p[..k + 1]) ==
              var m := Materialized(overlay, p[..k]);
              if p[..k] in m then m else m[p[..k] := Dir]
  {
    var longer, shorter := p[..k + 1], p[..k];
    assert longer[..k] == shorter;
    forall q ensures q in Ancestors(longer) <==> q in Ancestors(shorter) || q == shorter {
      if q in Ancestors(shorter) {
        var j :| 0 < j < k && q == shorter[..j];
        assert q == longer[..j];
      }
      if q in Ancestors(longer) && q != shorter {
        var j :| 0 < j <= k && q == longer[..j];
        assert j < k && q == shorter[..j];
      }
    }
    assert Ancestors(longer) == Ancestors(shorter) + {shorter};
  }

  class PathVirtualization {
    var base: Tree              // the container's own files
    var overlay: Tree           // <invocation root>/absolute
    var tombstones: set<Path>

    function Now(): Layer reads this {
      Layer(base, overlay, tombstones)
    }

    ghost predicate Ok() reads this {
      Valid(Now())
    }

    ghost function Seen(): Tree reads this {
      View(Now())
    }

    constructor (container: Tree)
      requires WellFormed(container)
      ensures base == container && overlay == map[[] := Dir] && tombstones == {}
      ensures Ok() && Seen() == container
    {
      base := container;
      overlay := map[[] := Dir];
      tombstones := {};
      FreshView(container);
    }

    method IsTombstoned(logical: Path) returns (hidden: bool)
      ensures hidden == Hidden(tombstones, logical)
    {
      var current := logical;
      while true
        invariant Hidden(tombstones, logical) == Hidden(tombstones, current)
        decreases |current|
      {
        if current in tombstones { return true; }
        if current == [] { return false; }
        current := Parent(current);
      }
    }

    /** stat or open for reading. */
    method ReadPath(logical: Path) returns (found: bool, node: Node)
      requires Ok()
      ensures found <==> logical in Seen()
      ensures found ==> node == Seen()[logical]
    {
      found, node := false, Dir;
      if logical in overlay { return true, overlay[logical]; }
      var hidden := IsTombstoned(logical);
      if !hidden && logical in base { return true, base[logical]; }
    }

    /** The real names of a directory that carry no tombstone. */
    method KeptNames(logical: Path) returns (names: set<Name>)
      ensures names == set n | n in Children(base, logical) && !Hidden(tombstones, logical + [n])
    {
      names := {};
      var realNames := Children(base, logical);
      while realNames != {}
        invariant realNames <= Children(base, logical)
        invariant names == set n | n in Children(base, logical) - realNames
                                   && !Hidden(tombstones, logical + [n])
      {
        var name :| name in realNames;
        var gone := IsTombstoned(logical + [name]);
        if !gone { names := names + {name}; }
        realNames := realNames - {name};
      }
    }

    /** The merged listing. It is right for every visible directory that does not
        stand where the container has a file, and fails on those that do. */
    method Listdir(logical: Path) returns (names: set<Name>, outcome: Outcome)
      requires Ok()
      ensures IsDir(Seen(), logical) && !IsFile(base, logical) ==>
                outcome == Done && names == Children(Seen(), logical)
      ensures logical in Seen() && (IsFile(Seen(), logical) || IsFile(base, logical)) ==>
                outcome == Failed(ENOTDIR)
      ensures logical !in Seen() && logical in base ==> outcome == Failed(ENOENT)
      // every case: a path that never existed is reported as an empty directory
      ensures outcome == if Hidden(tombstones, logical) && logical !in overlay then Failed(ENOENT)
                         else if BelowFile(base, logical) || BelowFile(overlay, logical) then Failed(ENOTDIR)
                         else Done
      ensures names == if outcome == Done && logical in Seen() then Children(Seen(), logical) else {}
    {
      names := {};
      var hidden := IsTombstoned(logical);
      if hidden && logical !in overlay { return {}, Failed(ENOENT); }
      if logical in base {
        if base[logical].File? { return {}, Failed(ENOTDIR); }
        names := KeptNames(logical);
      } else if Absent(base, logical) == ENOTDIR {
        AbsentNotShown(Now(), logical);
        return {}, Failed(ENOTDIR);
      }
      if logical in overlay {
        if overlay[logical].File? { return {}, Failed(ENOTDIR); }
        names := names + Children(overlay, logical);
      } else if Absent(overlay, logical) == ENOTDIR {
        BelowOverlayFile(Now(), logical);
        return {}, Failed(ENOTDIR);
      }
      outcome := Done;
      if logical in Seen() { ListingIsChildren(Now(), logical, names); }
    }

    method MaterializeExistingParents(logical: Path)
      requires Ok() && logical != [] && IsDir(Seen(), Parent(logical))
      modifies this`overlay
      ensures overlay == Materialized(old(overlay), logical)
    {
      AncestorsAreVisible(Now(), logical);
      assert Materialized(overlay, logical[..1]) == overlay;
      for k := 1 to |logical|
        invariant overlay == Materialized(old(overlay), logical[..k])
      {
        var current := logical[..k];
        assert current in Ancestors(logical);
        MaterializeOne(old(overlay), logical, k);
        if current !in overlay {
          if current !in base || base[current].File? { break; }
          overlay := overlay[current := Dir];
        }
      }
      assert logical[..|logical|] == logical;
    }

    /** Prepares the candidate of a path that is about to be written. On success
        the layer shows what it showed before, but for the cleared tombstone. */
    method WritePath(logical: Path, copyExisting: bool, exclusive: bool) returns (outcome: Outcome)
      requires Ok() && logical != [] && IsDir(Seen(), Parent(logical))
      modifies this`overlay, this`tombstones
      ensures outcome == if IsFile(base, Parent(logical)) then Failed(ENOTDIR)
                         else if exclusive && logical in old(Seen()) then Failed(EEXIST) else Done
      ensures outcome.Failed? ==> Ok() && Seen() == old(Seen())
      ensures forall q :: q in old(overlay) ==> q in overlay && overlay[q] == old(overlay)[q]
      ensures outcome.Done? ==>
                var prepared := Layer(base, overlay, old(tombstones));
                && Valid(prepared) && View(prepared) == old(Seen())
                && IsDir(overlay, Parent(logical)) && tombstones == old(tombstones) - {logical}
                && (logical in overlay <==>
                      logical in old(overlay) || (copyExisting && logical in old(Seen())))
    {
      hide View, Valid;
      MaterializeKeepsView(Now(), logical);
      MaterializeExistingParents(logical);
      Looks(Now(), logical);
      var candidateExists := logical in overlay;
      var realExists := false;
      if logical in base {
        RealParent(Now(), logical);
        var hidden := IsTombstoned(logical);
        realExists := !hidden;
      } else {
        AbsentBelowVisible(Now(), logical);
        if Absent(base, logical) == ENOTDIR { return Failed(ENOTDIR); }
      }
      assert candidateExists || realExists <==> logical in Seen();
      if exclusive && (candidateExists || realExists) { return Failed(EEXIST); }
      if copyExisting && !candidateExists && realExists {
        CopyUpKeepsView(Now(), logical);
        overlay := CopiedUp(Now(), logical);
      }
      tombstones := tombstones - {logical};
      outcome := Done;
    }

    /** open(logical, "w") or open(logical, "x"), leaving `data`. */
    method OpenNew(logical: Path, data: Bytes, exclusive: bool) returns (outcome: Outcome)
      requires Ok() && logical != [] && IsDir(Seen(), Parent(logical))
      modifies this`overlay, this`tombstones
      ensures IsFile(base, Parent(logical)) ==> outcome == Failed(ENOTDIR)
      ensures !IsFile(base, Parent(logical)) && exclusive && logical in old(Seen()) ==>
                outcome == Failed(EEXIST)
      ensures !IsFile(base, Parent(logical)) && !exclusive && IsDir(old(Seen()), logical) ==>
                outcome == if logical in old(overlay) then Failed(EISDIR) else Done
      ensures outcome == Done ==> Seen() == old(Seen())[logical := File(data)]
      ensures !IsFile(base, Parent(logical)) && !(exclusive && logical in old(Seen()))
              && !IsDir(old(Seen()), logical) ==>
                outcome == Done && Ok() && Seen() == old(Seen())[logical := File(data)]
      ensures outcome.Failed? ==> Ok() && Seen() == old(Seen())
    {
      hide View, Valid;
      outcome := WritePath(logical, false, exclusive);
      if outcome.Failed? { return; }
      ghost var prepared := Layer(base, overlay, old(tombstones));
      Looks(prepared, logical);
      if logical in overlay { NoTombstoneToClear(prepared, logical); }
      if IsDir(overlay, logical) { return Failed(EISDIR); }
      overlay := overlay[logical := File(data)];
      if IsDir(View(prepared), logical) {
        WrittenOverDir(prepared, logical, File(data));
      } else {
        InstallAssignsView(prepared, logical, File(data));
      }
    }

    /** open(logical, "a"), adding `data`. */
    method OpenAppend(logical: Path, data: Bytes) returns (outcome: Outcome)
      requires Ok() && logical != [] && IsDir(Seen(), Parent(logical))
      modifies this`overlay, this`tombstones
      ensures outcome == if IsFile(base, Parent(logical)) then Failed(ENOTDIR)
                         else if IsDir(old(Seen()), logical) then Failed(EISDIR) else Done
      ensures Ok() && Seen() == if outcome.Failed? then old(Seen()) else old(Seen())[logical :=
                File((if logical in old(Seen()) then old(Seen())[logical].content else []) + data)]
    {
      outcome := WritePath(logical, true, false);
      if outcome.Failed? { return; }
      ghost var prepared := Layer(base, overlay, old(tombstones));
      if logical in overlay { NoTombstoneToClear(prepared, logical); }
      if IsDir(overlay, logical) { return Failed(EISDIR); }
      var node := File((if logical in overlay then overlay[logical].content else []) + data);
      overlay := overlay[logical := node];
      InstallAssignsView(prepared, logical, node);
    }

    /** open(logical, "r+"), leaving `data`. */
    method OpenUpdate(logical: Path, data: Bytes) returns (outcome: Outcome)
      requires Ok() && logical != [] && IsDir(Seen(), Parent(logical))
      modifies this`overlay, this`tombstones
      ensures Ok() && Edited(logical, outcome)
      ensures Seen() == if outcome == Done then old(Seen())[logical := File(data)]
                        else AfterFailedEdit(base, old(Seen()), logical, outcome)
    {
      outcome := WritePath(logical, true, false);
      if outcome.Failed? { return; }
      ghost var prepared := Layer(base, overlay, old(tombstones));
      if logical !in overlay {
        ClearedTombstone(prepared, logical);
        return Failed(ENOENT);
      }
      NoTombstoneToClear(prepared, logical);
      if overlay[logical].Dir? { return Failed(EISDIR); }
      overlay := overlay[logical := File(data)];
      InstallAssignsView(prepared, logical, File(data));
    }

    method Truncate(logical: Path, length: nat) returns (outcome: Outcome)
      requires Ok() && logical != [] && IsDir(Seen(), Parent(logical))
      modifies this`overlay, this`tombstones
      ensures Ok() && Edited(logical, outcome)
      ensures Seen() == if outcome == Done
                        then old(Seen())[logical := File(Truncated(old(Seen())[logical].content, length))]
                        else AfterFailedEdit(base, old(Seen()), logical, outcome)
    {
      outcome := WritePath(logical, true, false);
      if outcome.Failed? { return; }
      ghost var prepared := Layer(base, overlay, old(tombstones));
      if logical !in overlay {
        ClearedTombstone(prepared, logical);
        return Failed(ENOENT);
      }
      NoTombstoneToClear(prepared, logical);
      if overlay[logical].Dir? { return Failed(EISDIR); }
      var node := File(Truncated(overlay[logical].content, length));
      overlay := overlay[logical := node];
      InstallAssignsView(prepared, logical, node);
    }

    /** chmod and utime, which leave names and contents alone. */
    method Touch(logical: Path) returns (outcome: Outcome)
      requires Ok() && logical != [] && IsDir(Seen(), Parent(logical))
      modifies this`overlay, this`tombstones
      ensures outcome == if IsFile(base, Parent(logical)) then Failed(ENOTDIR)
                         else if logical in old(Seen()) then Done else Failed(ENOENT)
      ensures Ok() && Seen() == if outcome == Done then old(Seen())
                                else AfterFailedEdit(base, old(Seen()), logical, outcome)
    {
      outcome := WritePath(logical, true, false);
      if outcome.Failed? { return; }
      ghost var prepared := Layer(base, overlay, old(tombstones));
      if logical !in overlay {
        ClearedTombstone(prepared, logical);
        return Failed(ENOENT);
      }
      NoTombstoneToClear(prepared, logical);
    }

    /** The outcome of editing a file in place. */
    twostate predicate Edited(p: Path, outcome: Outcome)
      requires p != []
      reads this
    {
      outcome == if IsFile(base, Parent(p)) then Failed(ENOTDIR)
                 else if p !in old(Seen()) then Failed(ENOENT)
                 else if IsDir(old(Seen()), p) then Failed(EISDIR) else Done
    }

    method Mkdir(logical: Path) returns (outcome: Outcome)
      requires Ok() && logical != [] && IsDir(Seen(), Parent(logical))
      modifies this`overlay, this`tombstones
      ensures outcome == if IsFile(base, Parent(logical)) then Failed(ENOTDIR)
                         else if logical in old(Seen()) then Failed(EEXIST) else Done
      ensures Ok() && Seen() == if outcome == Done then old(Seen())[logical := Dir] else old(Seen())
    {
      outcome := WritePath(logical, false, true);
      if outcome.Failed? { return; }
      ghost var prepared := Layer(base, overlay, old(tombstones));
      overlay := overlay[logical := Dir];
      InstallAssignsView(prepared, logical, Dir);
    }

    method Unlink(logical: Path) returns (outcome: Outcome)
      requires Ok() && logical != [] && IsDir(Seen(), Parent(logical))
      modifies this`overlay, this`tombstones
      ensures outcome == if IsFile(base, Parent(logical)) then Failed(ENOTDIR)
                         else if logical in old(overlay) && old(overlay)[logical].Dir? then Failed(EISDIR)
                         else if logical in old(overlay) || logical in base then Done
                         else Failed(ENOENT)
      ensures outcome.Failed? || !IsDir(old(Seen()), logical) ==>
                Ok() && Seen() == if outcome == Done then old(Seen()) - {logical} else old(Seen())
      // a container directory goes with all that is below it
      ensures outcome == Done && IsDir(old(Seen()), logical) ==> Seen() == WithoutSubtree(old(Seen()), logical)
    {
      hide View, Valid;
      ghost var before := Now();
      Looks(before, logical);
      var found := logical in overlay;
      if found {
        NotBelowFile(before, logical);
        if overlay[logical].Dir? { return Failed(EISDIR); }
        overlay := overlay - {logical};
      }
      if logical !in base {
        AbsentBelowVisible(before, logical);
        if Absent(base, logical) == ENOTDIR { return Failed(ENOTDIR); }
        if !found { return Failed(ENOENT); }
      } else {
        RealParent(before, logical);
      }
      tombstones := tombstones + {logical};
      outcome := Done;
      Removed(before, logical);
      assert overlay == before.overlay - {logical};
    }

    method Rmdir(logical: Path) returns (outcome: Outcome)
      requires Ok() && logical != [] && IsDir(Seen(), Parent(logical))
      modifies this`overlay, this`tombstones
      ensures Ok()
      ensures outcome == if IsFile(base, Parent(logical)) then Failed(ENOTDIR)
                         else if logical !in old(Seen()) then Failed(ENOENT)
                         else if IsFile(old(Seen()), logical) then Failed(ENOTDIR)
                         else if Children(old(Seen()), logical) != {} then Failed(ENOTEMPTY)
                         else if IsFile(base, logical) then Failed(ENOTDIR) else Done
      ensures Seen() == if outcome == Done then old(Seen()) - {logical}
                        else if IsDir(old(Seen()), logical) && Children(old(Seen()), logical) == {}
                                && IsFile(base, logical)
                        then old(Seen())[logical := base[logical]]
                        else old(Seen())
    {
      hide View, Valid;
      ghost var before := Now();
      Looks(before, logical);
      var found := logical in overlay;
      if found {
        NotBelowFile(before, logical);
        outcome := RmdirCandidate(logical);
        if outcome.Failed? { return; }
      }
      if logical !in base {
        AbsentBelowVisible(before, logical);
        if Absent(base, logical) == ENOTDIR { return Failed(ENOTDIR); }
        if !found { return Failed(ENOENT); }
      } else {
        RealParent(before, logical);
        var visible, listing := Listdir(logical);
        if listing.Failed? { return listing; }
        if visible != {} { return Failed(ENOTEMPTY); }
      }
      tombstones := tombstones + {logical};
      outcome := Done;
      EmptyDirGoes(before, logical);
      assert overlay == before.overlay - {logical};
    }

    /** The raw rmdir of an overlay node. */
    method RmdirCandidate(logical: Path) returns (outcome: Outcome)
      requires Ok() && logical != [] && logical in overlay
      modifies this`overlay
      ensures Ok()
      ensures outcome == if IsFile(old(Seen()), logical) then Failed(ENOTDIR)
                         else if Children(old(overlay), logical) != {} then Failed(ENOTEMPTY) else Done
      ensures Children(old(overlay), logical) != {} ==> Children(old(Seen()), logical) != {}
      ensures overlay == if outcome == Done then old(overlay) - {logical} else old(overlay)
      ensures Seen() == if outcome.Failed? then old(Seen())
                        else if logical in base then old(Seen())[logical := base[logical]]
                        else old(Seen()) - {logical}
      ensures outcome == Done && !IsDir(base, logical) ==> Children(old(Seen()), logical) == {}
    {
      if Children(overlay, logical) != {} { OverlayChildIsVisible(Now(), logical); }
      if overlay[logical].File? { return Failed(ENOTDIR); }
      if Children(overlay, logical) != {} { return Failed(ENOTEMPTY); }
      DroppedCandidate(Now(), logical);
      overlay := overlay - {logical};
      outcome := Done;
    }

    /** The source of a move, copied into the overlay when it is only real. */
    method CopyUpSource(logical: Path) returns (outcome: Outcome)
      requires Ok() && logical != [] && IsDir(Seen(), Parent(logical))
      modifies this`overlay
      ensures Ok() && Seen() == old(Seen())
      ensures outcome == if logical in Seen() then Done
                         else if IsFile(base, Parent(logical)) then Failed(ENOTDIR)
                         else Failed(ENOENT)
      ensures outcome == Done ==> logical in overlay
      ensures outcome == Done && !IsDir(Seen(), logical) ==>
                forall q :: q in overlay <==> q in old(overlay) || q <= logical
    {
      Looks(Now(), logical);
      if logical in overlay {
        PrefixesIn(overlay, logical);
        return Done;
      }
      var hidden := IsTombstoned(logical);
      if hidden {
        assert !Hidden(tombstones, Parent(logical));
        return Failed(ENOENT);
      }
      if logical !in base {
        AbsentBelowVisible(Now(), logical);
        return Failed(Absent(base, logical));
      }
      MaterializeKeepsView(Now(), logical);
      MaterializeExistingParents(logical);
      CopyUpKeepsView(Now(), logical);
      overlay := CopiedUp(Now(), logical);
      PrefixesIn(overlay, logical);
      outcome := Done;
    }

    /** rename (exclusive) and replace, for a source that is not a directory. */
    method Move(source: Path, target: Path, exclusive: bool) returns (outcome: Outcome)
      requires Ok() && source != [] && IsDir(Seen(), Parent(source)) && !IsDir(Seen(), source)
      requires target != [] && target != source && IsDir(Seen(), Parent(target))
      modifies this`overlay, this`tombstones
      ensures outcome ==
                if source !in old(Seen()) then
                  (if IsFile(base, Parent(source)) then Failed(ENOTDIR) else Failed(ENOENT))
                else if IsFile(base, Parent(target)) then Failed(ENOTDIR)
                else if exclusive && target in old(Seen()) then Failed(EEXIST)
                else if (target in old(overlay) || target <= source) && IsDir(old(Seen()), target) then Failed(EISDIR)
                else Done
      ensures outcome.Failed? ==> Ok() && Seen() == old(Seen())
      ensures outcome == Done && !IsDir(old(Seen()), target) ==>
                Ok() && Seen() == old(Seen())[target := old(Seen())[source]] - {source}
      // over a container directory the file is installed on top of what is below it
      ensures outcome == Done ==> Seen() == old(Seen())[target := old(Seen())[source]] - {source}
    {
      hide View, Valid;
      outcome := CopyUpSource(source);
      if outcome.Failed? { return; }
      ghost var removed := tombstones;
      outcome := WritePath(target, false, exclusive);
      if outcome.Failed? { return; }
      ghost var prepared := Layer(base, overlay, removed);
      Looks(prepared, source);
      Looks(prepared, target);
      if target in overlay { NoTombstoneToClear(prepared, target); }
      if IsDir(overlay, target) { return Failed(EISDIR); }
      if IsDir(View(prepared), target) {
        MovedOverDir(prepared, source, target);
      } else {
        MovedView(prepared, source, target);
      }
      overlay := overlay[target := overlay[source]] - {source};
      tombstones := tombstones + {source};
    }

    /** One placed call: the layer stays valid and agrees with the plain tree on
        outcome and visible result exactly when Faithful says so. */
    method Apply(op: Op) returns (outcome: Outcome)
      requires Ok() && Placed(Seen(), op)
      modifies this`overlay, this`tombstones
      ensures Faithful(old(Now()), op) ==> Ok() && (Seen(), outcome) == Plain(old(Seen()), op)
      ensures !Faithful(old(Now()), op) ==> (Seen(), outcome) != Plain(old(Seen()), op)
    {
      hide View, Valid;
      Looks(Now(), op.path);
      if IsFile(base, Parent(op.path)) { NothingBelowFile(Now(), op.path); }
      if (op.Rename? || op.Replace?) && IsFile(base, Parent(op.target)) {
        NothingBelowFile(Now(), op.target);
      }
      match op
      case Write(p, data) => outcome := OpenNew(p, data, false);
      case CreateNew(p, data) => outcome := OpenNew(p, data, true);
      case Append(p, data) => outcome := OpenAppend(p, data);
      case Update(p, data) => outcome := OpenUpdate(p, data);
      case Truncate(p, length) => outcome := Truncate(p, length);
      case Touch(p) => outcome := Touch(p);
      case Mkdir(p) => outcome := Mkdir(p);
      case Unlink(p) => outcome := Unlink(p);
      case Rmdir(p) => outcome := Rmdir(p);
      case Rename(p, target) => Looks(Now(), target); outcome := Move(p, target, true);
      case Replace(p, target) => Looks(Now(), target); outcome := Move(p, target, false);
    }

    /** Over any run of safe calls the merged view is the plain tree that started
        as the container's own, which itself never changes. */
    method Replay(ops: seq<Op>)
      requires Ok() && SafeRun(base, Seen(), ops)
      modifies this`overlay, this`tombstones
      ensures Ok() && Seen() == Final(old(Seen()), ops)
    {
      hide View, Valid;
      for i := 0 to |ops|
        invariant Ok() && SafeRun(base, Seen(), ops[i..])
        invariant Final(Seen(), ops[i..]) == Final(old(Seen()), ops)
      {
        assert ops[i..][0] == ops[i] && ops[i..][1..] == ops[i + 1..];
        SafeIsFaithful(Now(), ops[i]);
        var outcome := Apply(ops[i]);
      }
    }

    /** A deleted file comes back: unlink it, make a directory there, remove that. */
    static method Resurrection() returns (fs: PathVirtualization, outcome: Outcome)
      ensures fresh(fs) && fs.Ok() && outcome == Failed(ENOTDIR)
      ensures fs.Seen() == fs.base == map[[] := Dir, ["f"] := File([])]
    {
      hide View, Valid;
      var t: Tree := map[[] := Dir, ["f"] := File([])];
      assert Parent(["f"]) == [];
      fs := new PathVirtualization(t);
      outcome := fs.Unlink(["f"]);
      outcome := fs.Mkdir(["f"]);
      ghost var v := fs.Seen();
      assert v == map[[] := Dir, ["f"] := Dir];
      assert Children(v, ["f"]) == {};
      outcome := fs.Rmdir(["f"]);
      assert fs.Seen() == v[["f"] := File([])];
    }
  }
}
