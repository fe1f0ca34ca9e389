/** Edge bundles: per device a deployment table and numbered bundles that hold it whole. */
module Edge {
  import opened Wrappers
  import opened Sorting

  type BundleId = string
  type Device = string

  datatype Member = Member(operator: string, variant: string, package: string, artifact: string,
                           requirements: seq<string>)
  datatype Bundle = Bundle(revision: int, platform: string, members: seq<Member>)
  type Table = map<string, Member>

  datatype Slice = Slice(deployed: Table, bundles: map<BundleId, Bundle>)

  // ----- comparing members

  type Signature = seq<seq<string>>

  /** operator, variant, package, requirements: a tuple, compared part by part. */
  function Sig(m: Member): Signature { [[m.operator], [m.variant], [m.package], m.requirements] }

  function Sigs(ms: seq<Member>): seq<Signature> { seq(|ms|, i requires 0 <= i < |ms| => Sig(ms[i])) }

  function SigLe(a: Signature, b: Signature): bool {
    Lex(LexOrder(LexOrder(CharLe)), a, b)
  }

  lemma SigsOrdered()
    ensures TotalOrder(SigLe)
  {
    CharsOrdered();
    LexIsTotal(CharLe);
    LexIsTotal(LexOrder(CharLe));
    LexIsTotal(LexOrder(LexOrder(CharLe)));
    var order := LexOrder(LexOrder(LexOrder(CharLe)));
    assert forall a, b :: order(a, b) == SigLe(a, b);
  }

  /** _same_edge_members decides whether the same signatures occur equally often. */
  method SameMembers(expected: seq<Member>, actual: seq<Member>) returns (same: bool)
    ensures same <==> multiset(Sigs(expected)) == multiset(Sigs(actual))
  {
    SigsOrdered();
    SortedEqual(SigLe, Sigs(expected), Sigs(actual));
    same := Sort(SigLe, Sigs(expected)) == Sort(SigLe, Sigs(actual));
  }

  // ----- listings of a table

  /** The rows, each once, in any order. */
  ghost predicate Lists(rows: seq<Member>, t: Table) {
    && (forall i, j :: 0 <= i < j < |rows| ==> rows[i].operator != rows[j].operator)
    && (forall i :: 0 <= i < |rows| ==> rows[i].operator in t && t[rows[i].operator] == rows[i])
    && (forall op :: op in t ==> t[op] in rows)
  }

  /** Rows under the key of their operator. */
  predicate Keyed(t: Table) { forall op :: op in t ==> t[op].operator == op }

  function SigSet(t: Table): set<Signature> { set op | op in t :: Sig(t[op]) }

  /** A listing has each signature of the table once. */
  lemma ListedSigs(rows: seq<Member>, t: Table)
    requires Lists(rows, t) && Keyed(t)
    ensures multiset(Sigs(rows)) == multiset(SigSet(t))
  {
    var sigs := Sigs(rows);
    forall i, j | 0 <= i < j < |sigs| ensures sigs[i] != sigs[j] {
      assert sigs[i][0][0] == rows[i].operator && sigs[j][0][0] == rows[j].operator;
    }
    DistinctMultiset(sigs);
    forall x ensures x in Elems(sigs) <==> x in SigSet(t) {
      if x in sigs {
        var i :| 0 <= i < |sigs| && sigs[i] == x;
        assert Sig(t[rows[i].operator]) == x;
      }
      if x in SigSet(t) {
        var op :| op in t && Sig(t[op]) == x;
        var i :| 0 <= i < |rows| && rows[i] == t[op];
        assert sigs[i] == x;
      }
    }
  }

  /** Tables that agree on signatures have listings that do. */
  lemma SameTableSameSigs(a: seq<Member>, b: seq<Member>, s: Table, t: Table)
    requires Lists(a, s) && Lists(b, t) && Keyed(s) && Keyed(t) && s.Keys == t.Keys
    requires forall op :: op in s ==> Sig(s[op]) == Sig(t[op])
    ensures multiset(Sigs(a)) == multiset(Sigs(b))
  {
    ListedSigs(a, s);
    ListedSigs(b, t);
    hide Lists, Keyed;
    assert SigSet(s) == SigSet(t);
  }

  function OthersOf(rows: seq<Member>, operator: string): seq<Member> {
    if rows == [] then []
    else OthersOf(rows[..|rows| - 1], operator)
         + (if rows[|rows| - 1].operator == operator then [] else [rows[|rows| - 1]])
  }

  function LastOf(rows: seq<Member>, operator: string): Option<Member> {
    if rows == [] then None
    else if rows[|rows| - 1].operator == operator then Some(rows[|rows| - 1])
    else LastOf(rows[..|rows| - 1], operator)
  }

  lemma {:induction false} OthersListed(rows: seq<Member>, operator: string, t: Table)
    requires Lists(rows, t) && Keyed(t)
    ensures Lists(OthersOf(rows, operator), t - {operator})
    ensures LastOf(rows, operator) == if operator in t then Some(t[operator]) else None
    decreases |rows|
  {
    if rows != [] {
      var last, front := rows[|rows| - 1], rows[..|rows| - 1];
      FrontListed(rows, t);
      OthersListed(front, operator, t - {last.operator});
      if last.operator == operator {
        assert t - {operator} - {operator} == t - {operator};
      } else {
        assert (t - {last.operator}) - {operator} == (t - {operator}) - {last.operator};
        OneMoreListed(OthersOf(front, operator), t - {operator}, last);
      }
    } else {
      assert t == map[] by { forall op | op in t ensures t[op] in rows {} }
    }
  }

  lemma FrontListed(rows: seq<Member>, t: Table)
    requires Lists(rows, t) && Keyed(t) && rows != []
    ensures Lists(rows[..|rows| - 1], t - {rows[|rows| - 1].operator})
  {
    var last, front := rows[|rows| - 1], rows[..|rows| - 1];
    forall op | op in t - {last.operator} ensures t[op] in front {
      assert t[op] in rows && t[op] != last;
      var i :| 0 <= i < |rows| && rows[i] == t[op];
      assert front[i] == t[op];
    }
  }

  lemma OneMoreListed(rows: seq<Member>, t: Table, row: Member)
    requires row.operator in t && t[row.operator] == row && Lists(rows, t - {row.operator})
    ensures Lists(rows + [row], t)
  {
    var less := t - {row.operator};
    forall op | op in t ensures t[op] in rows + [row] {
      if op != row.operator { assert less[op] in rows; } else { assert (rows + [row])[|rows|] == row; }
    }
  }

  // ----- the invariant of a device

  function Revisions(bs: map<BundleId, Bundle>): set<int> { set id | id in bs :: bs[id].revision }

  predicate Latest(bs: map<BundleId, Bundle>, id: BundleId) {
    id in bs && forall other :: other in bs ==> bs[other].revision <= bs[id].revision
  }

  ghost predicate Numbered(bs: map<BundleId, Bundle>) {
    && (forall id, other :: id in bs && other in bs && id != other ==> bs[id].revision != bs[other].revision)
    && (forall r :: r in Revisions(bs) <==> 1 <= r <= |bs|)
  }

  /** Revisions are exactly 1 to n, each once, and the latest bundle is the deployment table. */
  ghost predicate Sound(s: Slice) {
    && Keyed(s.deployed) && Numbered(s.bundles)
    && (forall id :: Latest(s.bundles, id) ==> Lists(s.bundles[id].members, s.deployed))
    && (s.bundles == map[] ==> s.deployed == map[])
  }

  /** MAX(revision) + 1, or 1. */
  ghost predicate IsNext(bs: map<BundleId, Bundle>, r: int) {
    && (forall id :: id in bs ==> bs[id].revision < r)
    && (if bs == map[] then r == 1 else exists id :: id in bs && bs[id].revision == r - 1)
  }

  lemma NextIsSize(bs: map<BundleId, Bundle>, r: int)
    requires Numbered(bs) && IsNext(bs, r)
    ensures r == |bs| + 1
  {
    if bs != map[] {
      var id :| id in bs && bs[id].revision == r - 1;
      assert r - 1 in Revisions(bs);
      assert |bs| >= 1;
      assert |bs| in Revisions(bs);
      var top :| top in bs && bs[top].revision == |bs|;
    }
  }

  lemma NewRevision(bs: map<BundleId, Bundle>, id: BundleId, b: Bundle)
    requires Numbered(bs) && id !in bs && IsNext(bs, b.revision)
    ensures Numbered(bs[id := b])
    ensures var n := bs[id := b]; forall other :: Latest(n, other) <==> other == id
  {
    var n := bs[id := b];
    NextIsSize(bs, b.revision);
    assert |n| == |bs| + 1;
    RevisionsGrow(bs, id, b);
    assert forall other :: other in bs ==> n[other].revision < n[id].revision;
    assert Numbered(n) by { hide Revisions, Latest; }
  }

  lemma RevisionsGrow(bs: map<BundleId, Bundle>, id: BundleId, b: Bundle)
    requires id !in bs
    ensures Revisions(bs[id := b]) == Revisions(bs) + {b.revision}
  {
    var n := bs[id := b];
    forall r | r in Revisions(bs) + {b.revision} ensures r in Revisions(n) {
      if r in Revisions(bs) {
        var other :| other in bs && bs[other].revision == r;
        assert n[other].revision == r;
      } else {
        assert n[id].revision == r;
      }
    }
  }

  /** One transaction: deployment, bundle and members. */
  function Committed(s: Slice, id: BundleId, b: Bundle, candidate: Member): Slice {
    Slice(s.deployed[candidate.operator := candidate], s.bundles[id := b])
  }

  lemma CommitKeeps(s: Slice, id: BundleId, b: Bundle, candidate: Member)
    requires Sound(s) && id !in s.bundles && IsNext(s.bundles, b.revision)
    requires Lists(b.members, s.deployed[candidate.operator := candidate])
    ensures Sound(Committed(s, id, b, candidate)) && Latest(Committed(s, id, b, candidate).bundles, id)
  {
    hide Numbered, Latest, Lists;
    NewRevision(s.bundles, id, b);
  }

  /** The operator is deployed as it is, and the latest bundle is for the same platform. */
  ghost predicate Unchanged(s: Slice, candidate: Member, platform: string) {
    && candidate.operator in s.deployed && Sig(s.deployed[candidate.operator]) == Sig(candidate)
    && exists id :: Latest(s.bundles, id) && s.bundles[id].platform == platform
  }

  lemma NotDeployed(s: Slice, candidate: Member, platform: string)
    ensures Unchanged(s, candidate, platform) ==> candidate.operator in s.deployed
  {}

  /** With distinct revisions there is one latest bundle. */
  lemma OnlyLatest(s: Slice, id: BundleId)
    requires Sound(s) && Latest(s.bundles, id)
    ensures forall other :: Latest(s.bundles, other) ==> other == id
  {}

  lemma OneEach(a: Signature, b: Signature)
    ensures multiset([a]) == multiset([b]) <==> a == b
  {
    assert a in multiset([a]);
  }

  lemma WithCandidate(others: seq<Member>, t: Table, candidate: Member)
    requires Lists(others, t - {candidate.operator})
    ensures Lists(others + [candidate], t[candidate.operator := candidate])
  {
    var rows, n := others + [candidate], t[candidate.operator := candidate];
    forall op | op in n ensures n[op] in rows {
      if op == candidate.operator { assert rows[|others|] == candidate; }
      else { assert (t - {candidate.operator})[op] in others; }
    }
  }

  lemma EmptySound()
    ensures Sound(Slice(map[], map[]))
  {}

  datatype Outcome = Reused(bundle: BundleId) | Built(bundle: BundleId) | DependencyConflict

  class EdgeStore {
    var slices: map<Device, Slice>

    function At(device: Device): Slice reads this {
      if device in slices then slices[device] else Slice(map[], map[])
    }

    ghost predicate AllSound() reads this {
      forall d :: d in slices ==> Sound(slices[d])
    }

    constructor ()
      ensures AllSound() && slices == map[]
    {
      slices := map[];
    }

    method ListDeployments(device: Device) returns (rows: seq<Member>)
      requires Keyed(At(device).deployed)
      ensures Lists(rows, At(device).deployed)
    {
      rows := [];
      var t := At(device).deployed;
      var left := t.Keys;
      while left != {}
        invariant left <= t.Keys
        invariant forall i, j :: 0 <= i < j < |rows| ==> rows[i].operator != rows[j].operator
        invariant forall i :: 0 <= i < |rows| ==>
                    rows[i].operator in t && t[rows[i].operator] == rows[i] && rows[i].operator !in left
        invariant forall op :: op in t && op !in left ==> t[op] in rows
        decreases left
      {
        var op :| op in left;
        left := left - {op};
        rows := rows + [t[op]];
      }
    }

    /** Zero when there is no bundle. */
    method NextRevision(device: Device) returns (r: int)
      requires Sound(At(device))
      ensures IsNext(At(device).bundles, r)
    {
      var bs := At(device).bundles;
      var left, top := bs.Keys, 0;
      while left != {}
        invariant left <= bs.Keys
        invariant forall id :: id in bs && id !in left ==> bs[id].revision <= top
        invariant left == bs.Keys ==> top == 0
        invariant left != bs.Keys ==> exists id :: id in bs && bs[id].revision == top
        decreases left
      {
        var id :| id in left;
        assert bs[id].revision in Revisions(bs);
        if bs[id].revision > top { top := bs[id].revision; }
        left := left - {id};
      }
      r := top + 1;
    }

    method GetLatest(device: Device) returns (best: Option<BundleId>)
      ensures best.None? <==> At(device).bundles == map[]
      ensures best.Some? ==> Latest(At(device).bundles, best.value)
    {
      var bs := At(device).bundles;
      var left := bs.Keys;
      best := None;
      while left != {}
        invariant left <= bs.Keys
        invariant best.None? ==> left == bs.Keys
        invariant best.Some? ==> best.value in bs
        invariant best.Some? ==> forall id :: id in bs && id !in left ==> bs[id].revision <= bs[best.value].revision
        decreases left
      {
        var id :| id in left;
        if best.None? || bs[id].revision > bs[best.value].revision { best := Some(id); }
        left := left - {id};
      }
    }

    method Commit(device: Device, id: BundleId, b: Bundle, candidate: Member)
      requires AllSound() && id !in At(device).bundles && IsNext(At(device).bundles, b.revision)
      requires Lists(b.members, At(device).deployed[candidate.operator := candidate])
      modifies this
      ensures AllSound() && At(device) == Committed(old(At(device)), id, b, candidate)
      ensures forall d :: d != device ==> At(d) == old(At(d))
    {
      EmptySound();
      CommitKeeps(At(device), id, b, candidate);
      slices := slices[device := Committed(At(device), id, b, candidate)];
    }

    /** The rows of the other operators, and the operator's own. */
    method Others(rows: seq<Member>, operator: string, ghost t: Table)
      returns (others: seq<Member>, current: Option<Member>)
      requires Lists(rows, t) && Keyed(t)
      ensures Lists(others, t - {operator})
      ensures current == if operator in t then Some(t[operator]) else None
    {
      hide Lists;
      others, current := [], None;
      assert rows[..0] == [];
      for i := 0 to |rows|
        invariant others == OthersOf(rows[..i], operator) && current == LastOf(rows[..i], operator)
      {
        assert rows[..i + 1][..i] == rows[..i];
        if rows[i].operator == operator {
          current := Some(rows[i]);
        } else {
          others := others + [rows[i]];
        }
      }
      assert rows[..|rows|] == rows;
      OthersListed(rows, operator, t);
    }

    /** The comparison under the device lock. */
    method TryReuse(device: Device, expected: seq<Member>, candidate: Member, current: Member, platform: string,
                    filesIntact: bool) returns (reused: Option<BundleId>)
      requires Sound(At(device)) && candidate.operator in At(device).deployed
      requires current == At(device).deployed[candidate.operator]
      requires Lists(expected, At(device).deployed[candidate.operator := candidate])
      ensures reused.Some? <==> filesIntact && Unchanged(At(device), candidate, platform)
      ensures reused.Some? ==>
                && Latest(At(device).bundles, reused.value)
                && multiset(Sigs(At(device).bundles[reused.value].members)) == multiset(Sigs(expected))
    {
      var s := At(device);
      var latest := GetLatest(device);
      if latest.None? { return None; }
      OnlyLatest(s, latest.value);
      if s.bundles[latest.value].platform != platform { return None; }
      var same := SameMembers([candidate], [current]);
      assert same <==> Sig(current) == Sig(candidate) by {
        assert Sigs([candidate]) == [Sig(candidate)] && Sigs([current]) == [Sig(current)];
        OneEach(Sig(candidate), Sig(current));
      }
      if !same { return None; }
      SameTableSameSigs(expected, s.bundles[latest.value].members,
                        s.deployed[candidate.operator := candidate], s.deployed);
      same := SameMembers(expected, s.bundles[latest.value].members);
      return if same && filesIntact then latest else None;
    }

    /** Publishing reuses the latest bundle exactly when nothing has changed and its files
        are intact; either way the latest bundle then is what a full rebuild would hold. */
    method PublishNative(device: Device, candidate: Member, platform: string, force: bool, filesIntact: bool,
                         resolves: bool, newId: BundleId) returns (outcome: Outcome)
      requires AllSound() && newId !in At(device).bundles
      modifies this
      ensures AllSound() && forall d :: d != device ==> At(d) == old(At(d))
      ensures outcome.Reused? <==> !force && filesIntact && old(Unchanged(At(device), candidate, platform))
      ensures outcome.Reused? || outcome.DependencyConflict? ==> At(device) == old(At(device))
      ensures outcome.Built? <==> !outcome.Reused? && resolves
      ensures outcome.Built? ==>
                && outcome.bundle == newId && newId in At(device).bundles
                && At(device).deployed == old(At(device)).deployed[candidate.operator := candidate]
                && At(device).bundles[newId].revision == |old(At(device)).bundles| + 1
      ensures !outcome.DependencyConflict? ==>
                && Latest(At(device).bundles, outcome.bundle)
                && multiset(Sigs(At(device).bundles[outcome.bundle].members))
                   == multiset(SigSet(old(At(device)).deployed[candidate.operator := candidate]))
    {
      hide Lists, Latest, Unchanged, Sigs, SigSet;
      EmptySound();
      ghost var s := At(device);
      ghost var after := s.deployed[candidate.operator := candidate];
      var rows := ListDeployments(device);
      var members, current := Others(rows, candidate.operator, s.deployed);
      WithCandidate(members, s.deployed, candidate);
      ListedSigs(members + [candidate], after);
      NotDeployed(s, candidate, platform);
      if !force && current.Some? {
        var reused := TryReuse(device, members + [candidate], candidate, current.value, platform, filesIntact);
        if reused.Some? { return Reused(reused.value); }
      }
      if !resolves { return DependencyConflict; }
      Rebuild(device, members + [candidate], candidate, platform, newId);
      outcome := Built(newId);
    }

    method Rebuild(device: Device, members: seq<Member>, candidate: Member, platform: string, newId: BundleId)
      requires AllSound() && Sound(At(device)) && newId !in At(device).bundles
      requires Lists(members, At(device).deployed[candidate.operator := candidate])
      modifies this
      ensures AllSound() && forall d :: d != device ==> At(d) == old(At(d))
      ensures At(device).deployed == old(At(device)).deployed[candidate.operator := candidate]
      ensures newId in At(device).bundles && Latest(At(device).bundles, newId)
      ensures At(device).bundles[newId] == Bundle(|old(At(device)).bundles| + 1, platform, members)
    {
      hide Lists, Numbered, Latest;
      ghost var s := At(device);
      var revision := NextRevision(device);
      NextIsSize(s.bundles, revision);
      var bundle := Bundle(revision, platform, members);
      CommitKeeps(s, newId, bundle, candidate);
      Commit(device, newId, bundle, candidate);
    }
  }
}
