/** Runner publication against retirement of runtimes in the Publish service. Both hold
    the advisory lock of a runtime key; publication holds it over several steps. */
module Publish {
  import opened Wrappers
  import opened BuildTables

  type Key = Spec
  type Publisher = nat

  /** What a published variant says about its runtime. */
  datatype Meta = Meta(runtimeKey: Option<Key>, envKey: Key, image: string)
  datatype Variant = Variant(operator: string, version: nat, name: string)
  datatype Row = Row(image: string, retired: bool)

  datatype Pc =
    | Away
    | Guarded(variant: Variant, meta: Meta)      // lock taken
    | Admitted(variant: Variant, meta: Meta)     // first check passed, release being written
    | Rechecked(variant: Variant, meta: Meta)    // second check passed

  datatype State = State(
    versions: map<string, nat>,          // latest contract version of each operator
    published: map<Variant, Meta>,
    rows: map<Key, Row>,
    publishers: map<Publisher, Pc>)

  datatype Step =
    | NewContract(operator: string)
    | Lock(p: Publisher, variant: Variant, meta: Meta)
    | Check(p: Publisher)
    | Commit(p: Publisher)
    | GiveUp(p: Publisher)
    | Begin(key: Key, image: string)
    | CancelRow(key: Key)
    | FinalizeRow(key: Key)

  /** The key whose lock the publication takes. */
  function GuardKey(m: Meta): Key {
    if m.runtimeKey.Some? then m.runtimeKey.value else m.envKey
  }

  function PcOf(s: State, p: Publisher): Pc {
    if p in s.publishers then s.publishers[p] else Away
  }

  predicate HoldsLock(pc: Pc, key: Key) { !pc.Away? && GuardKey(pc.meta) == key }

  predicate Locked(s: State, key: Key) {
    exists p :: p in s.publishers && HoldsLock(s.publishers[p], key)
  }

  predicate Known(s: State, v: Variant) {
    v.operator in s.versions && v.version <= s.versions[v.operator]
  }

  predicate Current(s: State, v: Variant) {
    v.operator in s.versions && v.version == s.versions[v.operator]
  }

  predicate Enabled(s: State, step: Step) {
    match step
    case NewContract(_) => true
    case Lock(p, v, m) => PcOf(s, p).Away? && Known(s, v) && !Locked(s, GuardKey(m))
    case Check(p) => PcOf(s, p).Guarded? || PcOf(s, p).Admitted?
    case Commit(p) => PcOf(s, p).Rechecked?
    case GiveUp(p) => true
    case Begin(key, _) => !Locked(s, key)
    case CancelRow(key) => !Locked(s, key)
    case FinalizeRow(key) => !Locked(s, key)
  }

  // ----- the lifecycle rows

  /** A RETIRED row stays RETIRED. */
  function RowsAfterBegin(rows: map<Key, Row>, key: Key, image: string): map<Key, Row> {
    rows[key := Row(image, key in rows && rows[key].retired)]
  }

  datatype CancelOutcome = Cancelled | AlreadyActive | NotReactivable

  function RowsAfterCancel(rows: map<Key, Row>, key: Key): (map<Key, Row>, CancelOutcome) {
    if key !in rows then (rows, AlreadyActive)
    else if rows[key].retired then (rows, NotReactivable)
    else (rows - {key}, Cancelled)
  }

  function RowsAfterFinalize(rows: map<Key, Row>, key: Key): Option<map<Key, Row>> {
    if key in rows then Some(rows[key := rows[key].(retired := true)]) else None
  }

  /** What a cancel answers is what it did: only a row that is not RETIRED goes, and no other
      row changes. */
  lemma CancelAnswers(rows: map<Key, Row>, key: Key)
    ensures var (n, outcome) := RowsAfterCancel(rows, key);
            && (outcome == Cancelled <==> key in rows && key !in n)
            && (outcome == NotReactivable <==> key in rows && key in n)
            && (outcome == AlreadyActive <==> key !in rows)
            && (key in n <==> key in rows && rows[key].retired)
            && n.Keys <= rows.Keys && (forall k :: k in n ==> n[k] == rows[k])
            && (forall k :: k in rows && k != key ==> k in n)
  {}

  /** Begin and cancel leave nothing behind; begin and finalize leave a row that no later
      begin or cancel takes back. Only finalize needs a row. */
  lemma RowsThroughRetirement(rows: map<Key, Row>, key: Key, image: string, later: string)
    ensures var begun := RowsAfterBegin(rows, key, image);
            && key in begun && begun[key].image == image && (key !in rows ==> RowsAfterCancel(begun, key).0 == rows)
            && RowsAfterFinalize(begun, key).Some?
            && var done := RowsAfterFinalize(begun, key).value;
               && done - {key} == rows - {key} == begun - {key} && done[key] == Row(image, true)
               && RowsAfterCancel(done, key) == (done, NotReactivable)
               && RowsAfterBegin(done, key, later) == done[key := Row(later, true)]
    ensures RowsAfterFinalize(rows, key) == None <==> key !in rows
  {
    assert key !in rows ==> rows[key := Row(image, false)] - {key} == rows;
  }

  function Next(s: State, step: Step): State
    requires Enabled(s, step)
  {
    match step
    case NewContract(op) => s.(versions := s.versions[op := if op in s.versions then s.versions[op] + 1 else 1])
    case Lock(p, v, m) => s.(publishers := s.publishers[p := Guarded(v, m)])
    case Check(p) =>
      var pc := PcOf(s, p);
      s.(publishers := s.publishers[p :=
        if GuardKey(pc.meta) in s.rows then Away
        else if pc.Guarded? then Admitted(pc.variant, pc.meta)
        else Rechecked(pc.variant, pc.meta)])
    case Commit(p) =>
      var pc := PcOf(s, p);
      s.(publishers := s.publishers[p := Away], published := s.published[pc.variant := pc.meta])
    case GiveUp(p) => s.(publishers := s.publishers[p := Away])
    case Begin(key, image) => s.(rows := RowsAfterBegin(s.rows, key, image))
    case CancelRow(key) => s.(rows := RowsAfterCancel(s.rows, key).0)
    case FinalizeRow(key) =>
      s.(rows := if RowsAfterFinalize(s.rows, key).Some? then RowsAfterFinalize(s.rows, key).value else s.rows)
  }

  function Execute(s: State, steps: seq<Step>): State
    requires Legal(s, steps)
    decreases |steps|
  {
    if steps == [] then s else Execute(Next(s, steps[0]), steps[1..])
  }

  predicate Legal(s: State, steps: seq<Step>)
    decreases |steps|
  {
    steps == [] || (Enabled(s, steps[0]) && Legal(Next(s, steps[0]), steps[1..]))
  }

  // ----- references

  /** Current published Runner variants whose publication was guarded by this key. */
  function References(s: State, key: Key): set<Variant> {
    set v | v in s.published && Current(s, v) && GuardKey(s.published[v]) == key
  }

  /** What the service counts before it calls a retirement safe. */
  function ReportedReferences(s: State, key: Key, image: string): set<Variant> {
    set v | v in s.published && Current(s, v) && Mentions(s.published[v], key, image)
  }

  predicate Mentions(m: Meta, key: Key, image: string) {
    m.runtimeKey == Some(key) || m.envKey == key || m.image == image
  }

  /** safeForRetirement, as reported by begin_retirement. */
  predicate Safe(s: State, key: Key, image: string) {
    key in s.rows && !s.rows[key].retired && ReportedReferences(s, key, image) == {}
  }

  // ----- invariants

  ghost predicate LocksExclude(s: State) {
    forall p, q :: p in s.publishers && q in s.publishers && p != q && !s.publishers[p].Away? ==>
      !HoldsLock(s.publishers[q], GuardKey(s.publishers[p].meta))
  }

  predicate PastCheck(pc: Pc) { pc.Admitted? || pc.Rechecked? }

  ghost predicate Inv(s: State) {
    && LocksExclude(s)
    && (forall p :: p in s.publishers && PastCheck(s.publishers[p]) ==> GuardKey(s.publishers[p].meta) !in s.rows)
    && (forall p :: p in s.publishers && !s.publishers[p].Away? ==> Known(s, s.publishers[p].variant))
    && (forall v :: v in s.published ==> Known(s, v))
  }

  lemma StepKeeps(s: State, step: Step)
    requires Inv(s) && Enabled(s, step)
    ensures Inv(Next(s, step))
  {
    var n := Next(s, step);
    if step.Begin? {
      forall p | p in s.publishers && PastCheck(s.publishers[p]) ensures GuardKey(s.publishers[p].meta) !in n.rows {
        assert !HoldsLock(s.publishers[p], step.key);
      }
    }
    if step.Lock? {
      forall q | q in s.publishers ensures !HoldsLock(s.publishers[q], GuardKey(step.meta)) {}
    }
  }

  lemma {:induction false} EveryRun(s: State, steps: seq<Step>)
    requires Inv(s) && Legal(s, steps)
    ensures Inv(Execute(s, steps))
    decreases |steps|
  {
    if steps != [] {
      StepKeeps(s, steps[0]);
      EveryRun(Next(s, steps[0]), steps[1..]);
    }
  }

  const EMPTY: State := State(map[], map[], map[], map[])

  /** No variant becomes PUBLISHED under a key that has a lifecycle row. */
  lemma NeverPublishedWhileRetiring(steps: seq<Step>, p: Publisher)
    requires Legal(EMPTY, steps)
    ensures var s := Execute(EMPTY, steps);
            Enabled(s, Commit(p)) ==> GuardKey(PcOf(s, p).meta) !in s.rows
  {
    EveryRun(EMPTY, steps);
  }

  lemma ReportedCoversReferences(s: State, key: Key, image: string)
    ensures References(s, key) <= ReportedReferences(s, key, image)
  {}

  lemma StepKeepsUnreferenced(s: State, step: Step, key: Key)
    requires Inv(s) && Enabled(s, step) && step != CancelRow(key)
    requires key in s.rows && References(s, key) == {}
    ensures key in Next(s, step).rows && References(Next(s, step), key) == {}
  {
    var n := Next(s, step);
    forall v | v in n.published && Current(n, v) ensures GuardKey(n.published[v]) != key {
      if v in s.published && n.published[v] == s.published[v] && Current(s, v) {
        assert v !in References(s, key);
      }
    }
  }

  /** A new version of an operator's contract takes its variants, and no others, out of the
      current references, and is the next one. */
  lemma NewVersionSupersedes(s: State, operator: string, key: Key, image: string, name: string)
    requires Inv(s)
    ensures var n := Next(s, NewContract(operator));
            && Current(n, Variant(operator, if operator in s.versions then s.versions[operator] + 1 else 1, name))
            && References(n, key) == set v | v in References(s, key) && v.operator != operator
            && ReportedReferences(n, key, image)
               == set v | v in ReportedReferences(s, key, image) && v.operator != operator
            && (forall v :: Known(s, v) ==> Known(n, v))
  {}

  /** A publication can be given up at any stage; that frees its key's lock and changes
      nothing else. */
  lemma GivingUpUnlocks(s: State, p: Publisher, key: Key)
    requires Inv(s)
    ensures Enabled(s, GiveUp(p))
    ensures var n := Next(s, GiveUp(p));
            && PcOf(n, p) == Away && n == s.(publishers := n.publishers)
            && (forall q :: q != p ==> PcOf(n, q) == PcOf(s, q))
            && (HoldsLock(PcOf(s, p), key) ==> !Locked(n, key))
  {}

  /** After begin_retirement reports safe, the current references of the key stay empty
      and the row stays, until a cancel. */
  lemma {:induction false} SafeUntilCancelled(s: State, steps: seq<Step>, key: Key)
    requires Inv(s) && Legal(s, steps)
    requires key in s.rows && References(s, key) == {}
    requires forall i :: 0 <= i < |steps| ==> steps[i] != CancelRow(key)
    ensures key in Execute(s, steps).rows && References(Execute(s, steps), key) == {}
    decreases |steps|
  {
    if steps != [] {
      assert steps[0] != CancelRow(key);
      StepKeeps(s, steps[0]);
      StepKeepsUnreferenced(s, steps[0], key);
      SafeUntilCancelled(Next(s, steps[0]), steps[1..], key);
    }
  }

  /** The wider set that was counted does not stay empty: a reference to the key or image
      can appear while the row stands, exactly by a publication guarded by another key. */
  lemma NewMention(s: State, step: Step, key: Key, image: string)
    requires Inv(s) && Enabled(s, step) && key in s.rows && ReportedReferences(s, key, image) == {}
    ensures ReportedReferences(Next(s, step), key, image) != {} <==>
            step.Commit? && Current(s, PcOf(s, step.p).variant) && Mentions(PcOf(s, step.p).meta, key, image)
    ensures step.Commit? ==> GuardKey(PcOf(s, step.p).meta) != key
  {
    var n := Next(s, step);
    if step.Commit? && Current(s, PcOf(s, step.p).variant) && Mentions(PcOf(s, step.p).meta, key, image) {
      assert PcOf(s, step.p).variant in ReportedReferences(n, key, image);
    } else {
      forall v | v in n.published && Current(n, v) ensures !Mentions(n.published[v], key, image) {
        if v in s.published && n.published[v] == s.published[v] && Current(s, v) {
          assert v !in ReportedReferences(s, key, image);
        }
      }
    }
  }

  lemma Prepended(s: State, step: Step, rest: seq<Step>)
    requires Enabled(s, step) && Legal(Next(s, step), rest)
    ensures Legal(s, [step] + rest) && Execute(s, [step] + rest) == Execute(Next(s, step), rest)
  {
    assert ([step] + rest)[1..] == rest;
  }

  /** It does happen, from the start: a request for `key` that was resolved to a superset. */
  lemma SupersetMention(key: Key, larger: Key, image: string, op: string)
    requires key != larger
    ensures var v, m := Variant(op, 1, ""), Meta(Some(larger), key, image);
            var before := [NewContract(op)] + ([Begin(key, image)] + []);
            var after := [Lock(0, v, m)] + ([Check(0)] + ([Check(0)] + ([Commit(0)] + [])));
            && Legal(EMPTY, before) && Safe(Execute(EMPTY, before), key, image)
            && Legal(Execute(EMPTY, before), after)
            && v in ReportedReferences(Execute(Execute(EMPTY, before), after), key, image)
  {
    var v, m := Variant(op, 1, ""), Meta(Some(larger), key, image);
    var s1 := Next(EMPTY, NewContract(op));
    var s2 := Next(s1, Begin(key, image));
    Prepended(s1, Begin(key, image), []);
    Prepended(EMPTY, NewContract(op), [Begin(key, image)] + []);
    assert s2 == State(map[op := 1], map[], map[key := Row(image, false)], map[]);
    SupersetCommits(s2, v, m);
  }

  /** A publication runs through when no row stands in its way. */
  lemma SupersetCommits(s: State, v: Variant, m: Meta)
    requires s.publishers == map[] && Known(s, v) && GuardKey(m) !in s.rows
    ensures var after := [Lock(0, v, m)] + ([Check(0)] + ([Check(0)] + ([Commit(0)] + [])));
            Legal(s, after) && Execute(s, after) == s.(published := s.published[v := m], publishers := map[0 := Away])
  {
    var s1 := s.(publishers := map[0 := Guarded(v, m)]);
    var s2 := s.(publishers := map[0 := Admitted(v, m)]);
    var s3 := s.(publishers := map[0 := Rechecked(v, m)]);
    assert Next(s, Lock(0, v, m)) == s1 && Next(s1, Check(0)) == s2 && Next(s2, Check(0)) == s3;
    Prepended(s3, Commit(0), []);
    Prepended(s2, Check(0), [Commit(0)] + []);
    Prepended(s1, Check(0), [Check(0)] + ([Commit(0)] + []));
    Prepended(s, Lock(0, v, m), [Check(0)] + ([Check(0)] + ([Commit(0)] + [])));
  }

  /** A RETIRED row is for ever, so nothing is ever published under its key again, even
      when Build makes the environment anew. */
  lemma {:induction false} RetiredForever(s: State, steps: seq<Step>, key: Key, p: Publisher)
    requires Inv(s) && Legal(s, steps) && key in s.rows && s.rows[key].retired
    ensures var e := Execute(s, steps);
            && key in e.rows && e.rows[key].retired
            && (Enabled(e, Commit(p)) ==> GuardKey(PcOf(e, p).meta) != key)
    decreases |steps|
  {
    if steps != [] {
      StepKeeps(s, steps[0]);
      RetiredForever(Next(s, steps[0]), steps[1..], key, p);
    }
  }

  /** The durable gate, next to the tables its reports read. */
  class PublishRuntimeLifecycle {
    var versions: map<string, nat>
    var published: map<Variant, Meta>
    var rows: map<Key, Row>

    function Now(): State reads this {
      State(versions, published, rows, map[])
    }

    constructor ()
      ensures Now() == EMPTY
    {
      versions, published, rows := map[], map[], map[];
    }

    method AssertActive(key: Key, image: string) returns (error: string)
      ensures error == "" <==> key !in rows
    {
      if key !in rows { return ""; }
      if rows[key].image != image {
        return "runtime environment is lifecycle-blocked with another image_ref";
      }
      error := "runtime environment is retiring or retired and cannot be used by a new Runner publication";
    }

    method CurrentReferences(key: Key, image: string) returns (found: set<Variant>)
      ensures found == ReportedReferences(Now(), key, image)
    {
      var latest := set v | v in published && v.operator in versions && versions[v.operator] == v.version;
      found := set v | v in latest && (published[v].runtimeKey == Some(key) || published[v].envKey == key
                                       || published[v].image == image);
    }

    method Begin(key: Key, image: string) returns (retired: bool, references: set<Variant>, safe: bool)
      modifies this`rows
      ensures rows == RowsAfterBegin(old(rows), key, image) && retired == rows[key].retired
      ensures references == ReportedReferences(Now(), key, image) && safe == Safe(Now(), key, image)
      ensures safe ==> References(Now(), key) == {}
    {
      retired := key in rows && rows[key].retired;
      rows := rows[key := Row(image, retired)];
      references := CurrentReferences(key, image);
      safe := references == {} && !retired;
      ReportedCoversReferences(Now(), key, image);
    }

    method Cancel(key: Key) returns (outcome: CancelOutcome)
      modifies this`rows
      ensures (rows, outcome) == RowsAfterCancel(old(rows), key)
    {
      if key in rows && !rows[key].retired {
        rows := rows - {key};
        return Cancelled;
      }
      outcome := if key !in rows then AlreadyActive else NotReactivable;
    }

    method Finalize(key: Key) returns (found: bool)
      modifies this`rows
      ensures found == RowsAfterFinalize(old(rows), key).Some?
      ensures rows == if found then RowsAfterFinalize(old(rows), key).value else old(rows)
    {
      found := key in rows;
      if found { rows := rows[key := rows[key].(retired := true)]; }
    }
  }
}
