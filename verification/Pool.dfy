/** The warm worker pool: idle workers bucketed by tenant, runtime and profile. */
module Pool {
  import opened Wrappers
  import opened Quota

  type WorkerId = string
  datatype PoolKey = PoolKey(tenant: string, runtime: string, profile: string)
  datatype Worker = Worker(key: PoolKey, healthy: bool, destroyed: bool,
                           runs: nat, installed: set<string>, lastUsed: int)
  type Idle = map<PoolKey, seq<WorkerId>>

  datatype Popped = Popped(rest: seq<WorkerId>, stale: seq<WorkerId>, candidate: Option<WorkerId>)

  /** Pop from the end: discard bad workers until a good one turns up. */
  function PopFrom(bucket: seq<WorkerId>, bad: set<WorkerId>): Popped
    decreases |bucket|
  {
    if bucket == [] then Popped([], [], None)
    else
      var last, front := bucket[|bucket| - 1], bucket[..|bucket| - 1];
      if last in bad then
        var p := PopFrom(front, bad);
        Popped(p.rest, [last] + p.stale, p.candidate)
      else Popped(front, [], Some(last))
  }

  predicate Distinct(bucket: seq<WorkerId>) {
    forall i, j :: 0 <= i < j < |bucket| ==> bucket[i] != bucket[j]
  }

  /** Popping splits the bucket: a prefix stays, the good worker nearest the end is
      handed out, and exactly the bad ones behind it are discarded. */
  lemma {:induction false} PopSplits(bucket: seq<WorkerId>, bad: set<WorkerId>)
    ensures var p := PopFrom(bucket, bad);
            && p.rest <= bucket
            && (forall w :: w in bucket <==> w in p.rest || w in p.stale || p.candidate == Some(w))
            && (forall w :: w in p.stale ==> w in bad)
            && (p.candidate.Some? ==> p.candidate.value !in bad)
            && (p.candidate.None? ==> p.rest == [])
            && |bucket| == |p.rest| + |p.stale| + (if p.candidate.Some? then 1 else 0)
    decreases |bucket|
  {
    if bucket != [] {
      var front := bucket[..|bucket| - 1];
      assert bucket == front + [bucket[|bucket| - 1]];
      if bucket[|bucket| - 1] in bad { PopSplits(front, bad); }
    }
  }

  /** What stays idle is apart from what was taken out. */
  lemma {:induction false} PopApart(bucket: seq<WorkerId>, bad: set<WorkerId>)
    requires Distinct(bucket)
    ensures var p := PopFrom(bucket, bad);
            && Distinct(p.rest) && Distinct(p.stale)
            && (forall w :: w in p.rest ==> w !in p.stale && p.candidate != Some(w))
            && (p.candidate.Some? ==> p.candidate.value !in p.stale)
    decreases |bucket|
  {
    if bucket != [] {
      var front := bucket[..|bucket| - 1];
      PopSplits(front, bad);
      if bucket[|bucket| - 1] in bad {
        PopApart(front, bad);
        assert bucket[|bucket| - 1] !in front;
        Joined([bucket[|bucket| - 1]], PopFrom(front, bad).stale);
      }
    }
  }

  /** A good last worker is popped at once, a bad one is discarded. */
  lemma LastFirst(bucket: seq<WorkerId>, bad: set<WorkerId>)
    requires bucket != []
    ensures var p, last := PopFrom(bucket, bad), bucket[|bucket| - 1];
            if last in bad then last in p.stale else p.stale == [] && p.candidate == Some(last)
  {}

  lemma Joined(a: seq<WorkerId>, b: seq<WorkerId>)
    requires Distinct(a) && Distinct(b) && forall w :: w in a ==> w !in b
    ensures Distinct(a + b)
  {
    forall i, j | 0 <= i < j < |a + b| ensures (a + b)[i] != (a + b)[j] {
      if i < |a| <= j { assert a[i] in a && b[j - |a|] in b; }
    }
  }

  lemma DistinctPrefix(a: seq<WorkerId>)
    requires Distinct(a)
    ensures forall i :: 0 <= i < |a| ==> a[i] !in a[..i]
  {}

  /** The bucket without the workers in `out`, in order. */
  function Without(bucket: seq<WorkerId>, out: set<WorkerId>): seq<WorkerId> {
    if bucket == [] then []
    else (if bucket[0] in out then [] else [bucket[0]]) + Without(bucket[1..], out)
  }

  lemma {:induction false} WithoutDrops(bucket: seq<WorkerId>, out: set<WorkerId>)
    ensures forall w :: w in Without(bucket, out) <==> w in bucket && w !in out
    ensures Distinct(bucket) ==> Distinct(Without(bucket, out))
  {
    if bucket != [] { WithoutDrops(bucket[1..], out); }
  }

  lemma {:induction false} WithoutAppends(a: seq<WorkerId>, w: WorkerId, out: set<WorkerId>)
    ensures Without(a + [w], out) == Without(a, out) + (if w in out then [] else [w])
  {
    if a == [] {
      assert a + [w] == [w] && [w][1..] == [];
    } else {
      var kept := if a[0] in out then [] else [a[0]];
      var tail := if w in out then [] else [w];
      assert (a + [w])[1..] == a[1..] + [w];
      WithoutAppends(a[1..], w, out);
      assert Without(a + [w], out) == kept + (Without(a[1..], out) + tail);
      assert Without(a, out) == kept + Without(a[1..], out);
    }
  }

  /** The pool without the workers in `out`; a bucket left empty is dropped. */
  function Sweep(idle: Idle, out: set<WorkerId>): Idle {
    map k | k in idle && Without(idle[k], out) != [] :: Without(idle[k], out)
  }

  /** The pool after a pop from the bucket of `key`. */
  function AfterPop(idle: Idle, key: PoolKey, p: Popped): Idle {
    if p.rest == [] then idle - {key} else idle[key := p.rest]
  }

  function Bucket(idle: Idle, key: PoolKey): seq<WorkerId> {
    if key in idle then idle[key] else []
  }

  function AfterAppend(idle: Idle, key: PoolKey, w: WorkerId): Idle {
    idle[key := Bucket(idle, key) + [w]]
  }

  predicate IsIdle(idle: Idle, w: WorkerId) {
    exists k :: k in idle && w in idle[k]
  }

  /** The workers that hold a reservation of this tenant. */
  function Holders(workers: map<WorkerId, Worker>, tenant: string): set<WorkerId> {
    set w | w in workers && workers[w].key.tenant == tenant && !workers[w].destroyed
  }

  /** All workers that hold a reservation. */
  function Living(workers: map<WorkerId, Worker>): set<WorkerId> {
    set w | w in workers && !workers[w].destroyed
  }

  /** The accounts agree with the workers. */
  ghost predicate Balanced(workers: map<WorkerId, Worker>, c: Counts) {
    c.live == |Living(workers)| && forall t :: TenantCount(c, t) == |Holders(workers, t)|
  }

  /** Destroying a live worker and releasing its reservation keep the balance, and
      the release is never the ignored one. */
  lemma DestroyKeepsBalance(workers: map<WorkerId, Worker>, c: Counts, w: WorkerId)
    requires Balanced(workers, c) && w in workers && !workers[w].destroyed
    ensures Balanced(workers[w := workers[w].(destroyed := true)], Release(c, workers[w].key.tenant))
    ensures TenantCount(c, workers[w].key.tenant) > 0
  {
    var after := workers[w := workers[w].(destroyed := true)];
    var own := workers[w].key.tenant;
    assert w in Holders(workers, own);
    assert Living(after) == Living(workers) - {w};
    forall t ensures TenantCount(Release(c, own), t) == |Holders(after, t)| {
      assert Holders(after, t) == Holders(workers, t) - {w};
      if t != own { assert w !in Holders(workers, t); }
    }
  }

  lemma AdmitKeepsBalance(workers: map<WorkerId, Worker>, c: Counts, caps: Caps, w: WorkerId, worker: Worker)
    requires Balanced(workers, c) && w !in workers && !worker.destroyed
    requires Reserve(c, caps, worker.key.tenant).1 == Granted
    ensures Balanced(workers[w := worker], Reserve(c, caps, worker.key.tenant).0)
  {
    hide Holders;
    var own := worker.key.tenant;
    assert Living(workers[w := worker]) == Living(workers) + {w};
    forall t ensures TenantCount(Reserve(c, caps, own).0, t) == |Holders(workers[w := worker], t)| {
      HoldersAfterAdmit(workers, w, worker, t);
      assert TenantCount(c, t) == |Holders(workers, t)|;
    }
  }

  lemma HoldersAfterAdmit(workers: map<WorkerId, Worker>, w: WorkerId, worker: Worker, t: string)
    requires w !in workers && !worker.destroyed
    ensures |Holders(workers[w := worker], t)| == |Holders(workers, t)| + (if t == worker.key.tenant then 1 else 0)
  {
    assert Holders(workers[w := worker], t) == Holders(workers, t) + (if t == worker.key.tenant then {w} else {});
  }

  /** Below both caps, said with the workers that exist. */
  ghost predicate Room(workers: map<WorkerId, Worker>, caps: Caps, tenant: string) {
    |Living(workers)| < caps.live && |Holders(workers, tenant)| < caps.perTenant
  }

  /** Reservations are granted exactly while there is room. */
  lemma RoomGrants(workers: map<WorkerId, Worker>, c: Counts, caps: Caps, tenant: string)
    requires Balanced(workers, c) && Sane(c, caps) && 0 < caps.perTenant
    ensures Reserve(c, caps, tenant).1 == Granted <==> Room(workers, caps, tenant)
    ensures Reserve(c, caps, tenant).1 == GlobalQuota <==> |Living(workers)| >= caps.live
  {
    GrantedExactly(c, caps, tenant);
  }

  /** Updates that touch neither owner nor destruction keep the balance. */
  lemma SameHolders(workers: map<WorkerId, Worker>, c: Counts, w: WorkerId, worker: Worker)
    requires Balanced(workers, c) && w in workers
    requires worker.key == workers[w].key && worker.destroyed == workers[w].destroyed
    ensures Balanced(workers[w := worker], c)
  {
    assert Living(workers[w := worker]) == Living(workers);
    forall t ensures Holders(workers[w := worker], t) == Holders(workers, t) {}
  }

  /** Idle lists hold distinct workers of their own key: no worker is idle twice. */
  ghost predicate Filed(workers: map<WorkerId, Worker>, idle: Idle) {
    && (forall k :: k in idle ==> Distinct(idle[k]))
    && (forall k, w :: k in idle && w in idle[k] ==> w in workers && workers[w].key == k)
  }

  lemma PopStaysFiled(workers: map<WorkerId, Worker>, idle: Idle, key: PoolKey, bad: set<WorkerId>)
    requires Filed(workers, idle)
    ensures var p := PopFrom(Bucket(idle, key), bad);
            && Filed(workers, AfterPop(idle, key, p))
            && Distinct(p.stale)
            && (forall w :: w in p.stale ==> w in workers && w in Bucket(idle, key))
            && (p.candidate.Some? ==> p.candidate.value in workers && workers[p.candidate.value].key == key
                                      && p.candidate.value !in p.stale
                                      && !IsIdle(AfterPop(idle, key, p), p.candidate.value))
  {
    PopSplits(Bucket(idle, key), bad);
    PopApart(Bucket(idle, key), bad);
  }

  lemma AppendAdds(idle: Idle, key: PoolKey, w: WorkerId)
    ensures forall v :: IsIdle(AfterAppend(idle, key, w), v) <==> IsIdle(idle, v) || v == w
  {
    var after := AfterAppend(idle, key, w);
    forall v ensures IsIdle(after, v) <==> IsIdle(idle, v) || v == w {
      if v == w || (key in idle && v in idle[key]) { assert v in after[key]; }
      if k :| k in idle && v in idle[k] { assert v in after[k]; }
    }
  }

  /** A pop takes exactly the discarded workers and the candidate out of the idle lists. */
  lemma PopTakes(workers: map<WorkerId, Worker>, idle: Idle, key: PoolKey, bad: set<WorkerId>)
    requires Filed(workers, idle)
    ensures var p := PopFrom(Bucket(idle, key), bad);
            forall v :: IsIdle(AfterPop(idle, key, p), v) <==>
                        IsIdle(idle, v) && v !in p.stale && p.candidate != Some(v)
  {
    var p := PopFrom(Bucket(idle, key), bad);
    var after := AfterPop(idle, key, p);
    PopSplits(Bucket(idle, key), bad);
    PopApart(Bucket(idle, key), bad);
    forall v ensures IsIdle(after, v) <==> IsIdle(idle, v) && v !in p.stale && p.candidate != Some(v) {
      if k :| k in after && v in after[k] { assert k in idle && v in idle[k]; }
      if k :| k in idle && v in idle[k] {
        assert workers[v].key == k;
        assert k in after ==> v in after[k] || v !in p.rest;
      }
    }
  }

  /** The workers in `gone` marked destroyed. */
  function Doomed(workers: map<WorkerId, Worker>, gone: set<WorkerId>): map<WorkerId, Worker> {
    map w | w in workers :: if w in gone then workers[w].(destroyed := true) else workers[w]
  }

  /** The backend failures that a destroy loop meets: an already destroyed worker is skipped. */
  function Raising(workers: map<WorkerId, Worker>, raises: set<WorkerId>): set<WorkerId> {
    set w | w in raises && w in workers && !workers[w].destroyed
  }

  function Elements(ws: seq<WorkerId>): set<WorkerId> { set w | w in ws }

  /** What a destroy loop destroys; the rest of the queue is dropped. */
  function Hit(queue: seq<WorkerId>, raising: set<WorkerId>): set<WorkerId> {
    Elements(queue[..ReachedIn(queue, raising)])
  }

  /** How far a destroy loop gets: the first backend failure ends it. */
  function ReachedIn(queue: seq<WorkerId>, raising: set<WorkerId>): (n: nat)
    ensures n <= |queue|
    ensures (forall i :: 0 <= i < n - 1 ==> queue[i] !in raising)
    ensures n < |queue| ==> 0 < n && queue[n - 1] in raising
  {
    if queue == [] then 0 else if queue[0] in raising then 1 else 1 + ReachedIn(queue[1..], raising)
  }

  /** What the backend does during one call into the pool. */
  datatype Faults = Faults(destroyRaises: set<WorkerId>, renewRaises: bool,
                           created: Option<WorkerId>, installRaises: bool)
  datatype Acquired = Got(worker: WorkerId) | QuotaRefused(verdict: Verdict) | BackendRaised

  /** The idle lists of some keys. */
  function Among(idle: Idle, keys: set<PoolKey>): Idle {
    map k | k in idle && k in keys :: idle[k]
  }

  lemma NoBucket(idle: Idle, out: set<WorkerId>)
    ensures Sweep(Among(idle, {}), out) == map[] && Among(idle, idle.Keys) == idle
    ensures forall w :: !IsIdle(Among(idle, {}), w)
  {}

  lemma OneMoreBucket(workers: map<WorkerId, Worker>, idle: Idle, done: set<PoolKey>, key: PoolKey, out: set<WorkerId>)
    requires Filed(workers, idle) && key in idle && key !in done
    ensures var before, kept := Sweep(Among(idle, done), out), Without(idle[key], out);
            Sweep(Among(idle, done + {key}), out) == if kept == [] then before else before[key := kept]
    ensures forall w :: IsIdle(Among(idle, done + {key}), w) <==> IsIdle(Among(idle, done), w) || w in idle[key]
    ensures forall w :: w in idle[key] ==> !IsIdle(Among(idle, done), w)
  {
    var some := Among(idle, done);
    assert Among(idle, done + {key}) == some[key := idle[key]];
    SweepOne(some, key, idle[key], out);
    IdleInOneMore(some, key, idle[key]);
    forall w, k | w in idle[key] && k in some ensures w !in some[k] {
      assert forall v :: v in idle[k] ==> v in workers && workers[v].key == k;
    }
  }

  lemma SweepOne(some: Idle, key: PoolKey, bucket: seq<WorkerId>, out: set<WorkerId>)
    requires key !in some
    ensures var before, kept := Sweep(some, out), Without(bucket, out);
            Sweep(some[key := bucket], out) == if kept == [] then before else before[key := kept]
  {
    hide Without;
  }

  lemma IdleInOneMore(some: Idle, key: PoolKey, bucket: seq<WorkerId>)
    requires key !in some
    ensures forall w :: IsIdle(some[key := bucket], w) <==> IsIdle(some, w) || w in bucket
  {
    var more := some[key := bucket];
    forall w ensures IsIdle(more, w) <==> IsIdle(some, w) || w in bucket {
      if w in bucket { assert w in more[key]; }
      if k :| k in some && w in some[k] { assert w in more[k]; }
    }
  }

  lemma BucketIsKnown(workers: map<WorkerId, Worker>, idle: Idle, key: PoolKey)
    requires Filed(workers, idle)
    ensures forall w :: w in Bucket(idle, key) ==> w in workers && workers[w].key == key
  {}

  lemma BucketIsIdle(idle: Idle, key: PoolKey)
    ensures forall w :: w in Bucket(idle, key) ==> IsIdle(idle, w)
  {}

  lemma AdmitKeepsFiled(workers: map<WorkerId, Worker>, idle: Idle, w: WorkerId, worker: Worker)
    requires Filed(workers, idle) && w !in workers
    ensures Filed(workers[w := worker], idle)
  {}

  lemma IdleAreKnown(workers: map<WorkerId, Worker>, idle: Idle)
    requires Filed(workers, idle)
    ensures forall w :: IsIdle(idle, w) ==> w in workers
  {}

  /** A sweep keeps every idle list a list of distinct workers of the same key. */
  lemma SweepFiles(idle: Idle, out: set<WorkerId>)
    ensures forall k :: k in Sweep(idle, out) ==> k in idle
    ensures forall k, w :: k in Sweep(idle, out) && w in Sweep(idle, out)[k] ==> w in idle[k]
    ensures forall k :: k in Sweep(idle, out) && Distinct(idle[k]) ==> Distinct(Sweep(idle, out)[k])
  {
    forall k | k in Sweep(idle, out)
      ensures k in idle
      ensures forall w :: w in Sweep(idle, out)[k] ==> w in idle[k]
      ensures Distinct(idle[k]) ==> Distinct(Sweep(idle, out)[k])
    { WithoutDrops(idle[k], out); }
  }

  lemma SweepStaysFiled(workers: map<WorkerId, Worker>, idle: Idle, out: set<WorkerId>)
    requires Filed(workers, idle)
    ensures Filed(workers, Sweep(idle, out))
  {
    SweepFiles(idle, out);
  }

  /** Exactly the workers outside `out` stay idle. */
  lemma SweepLeaves(idle: Idle, out: set<WorkerId>)
    ensures forall w :: IsIdle(Sweep(idle, out), w) <==> IsIdle(idle, w) && w !in out
  {
    forall w ensures IsIdle(Sweep(idle, out), w) <==> IsIdle(idle, w) && w !in out {
      if k :| k in Sweep(idle, out) && w in Sweep(idle, out)[k] { WithoutDrops(idle[k], out); }
      if k :| w !in out && k in idle && w in idle[k] {
        WithoutDrops(idle[k], out);
        assert w in Sweep(idle, out)[k];
      }
    }
  }

  lemma {:induction false} DistinctSize(ws: seq<WorkerId>)
    requires Distinct(ws)
    ensures |Elements(ws)| == |ws|
  {
    if ws != [] {
      DistinctSize(ws[1..]);
      assert Elements(ws) == {ws[0]} + Elements(ws[1..]);
    }
  }

  /** A destroy loop changes nothing but its queue. */
  lemma DoomsOnlyQueue(workers: map<WorkerId, Worker>, queue: seq<WorkerId>, raising: set<WorkerId>)
    ensures var after := Doomed(workers, Hit(queue, raising));
            && after.Keys == workers.Keys
            && (forall w :: w in workers && w !in queue ==> after[w] == workers[w])
            && (forall w :: w in workers ==>
                  (after[w].destroyed <==> workers[w].destroyed || w in Hit(queue, raising)))
  {}

  lemma NoneDoomed(workers: map<WorkerId, Worker>, queue: seq<WorkerId>)
    ensures Doomed(workers, Elements(queue[..0])) == workers
  {}

  /** The first failure, or the end of the queue, decides what a destroy loop hits. */
  lemma HitIs(queue: seq<WorkerId>, raising: set<WorkerId>, n: nat)
    requires n <= |queue| && forall j :: 0 <= j < n - 1 ==> queue[j] !in raising
    requires n < |queue| ==> 0 < n && queue[n - 1] in raising
    ensures Hit(queue, raising) == Elements(queue[..n])
  {
    assert n == ReachedIn(queue, raising);
  }

  lemma DoomStep(workers: map<WorkerId, Worker>, queue: seq<WorkerId>, i: nat)
    requires i < |queue| && queue[i] in workers && queue[i] !in queue[..i]
    ensures var before := Doomed(workers, Elements(queue[..i]));
            && queue[i] in before && before[queue[i]] == workers[queue[i]]
            && before[queue[i] := workers[queue[i]].(destroyed := true)]
               == Doomed(workers, Elements(queue[..i + 1]))
  {
    assert Elements(queue[..i + 1]) == Elements(queue[..i]) + {queue[i]};
  }

  /** Without a failure a destroy loop reaches all of its queue. */
  lemma AllHit(queue: seq<WorkerId>, raising: set<WorkerId>)
    requires forall w :: w in queue ==> w !in raising
    ensures Hit(queue, raising) == Elements(queue)
  {
    assert queue[..|queue|] == queue;
  }

  /** Alive workers that are not idle: checked out, or dropped. */
  ghost function OutOf(workers: map<WorkerId, Worker>, idle: Idle): set<WorkerId> {
    set w | w in workers && !workers[w].destroyed && !IsIdle(idle, w)
  }

  /** The live workers of a queue that a destroy loop does not get to. */
  function Left(workers: map<WorkerId, Worker>, queue: seq<WorkerId>, raising: set<WorkerId>): set<WorkerId> {
    set w | w in queue && w in workers && !workers[w].destroyed && w !in Hit(queue, raising)
  }

  lemma NothingFails(raising: set<WorkerId>)
    ensures !Fails([], raising)
  {}

  predicate Fails(queue: seq<WorkerId>, raising: set<WorkerId>) {
    exists w :: w in queue && w in raising
  }

  function CandidateOf(p: Popped): set<WorkerId> {
    if p.candidate.Some? then {p.candidate.value} else {}
  }

  /** The workers that an acquire loses, alive and on the books: when the backend fails to
      destroy a discarded worker, the live ones behind it and the candidate. */
  function Dropped(workers: map<WorkerId, Worker>, p: Popped, raising: set<WorkerId>): set<WorkerId> {
    Left(workers, p.stale, raising) + (if Fails(p.stale, raising) then CandidateOf(p) else {})
  }

  /** A destroy loop leaves nobody exactly if no destruction fails, or only the dead are
      behind the first that does. */
  lemma LeavesNobody(workers: map<WorkerId, Worker>, queue: seq<WorkerId>, raising: set<WorkerId>)
    requires Distinct(queue) && forall w :: w in queue ==> w in workers
    ensures Left(workers, queue, raising) == {} <==>
            !Fails(queue, raising)
            || forall i :: ReachedIn(queue, raising) <= i < |queue| ==> workers[queue[i]].destroyed
  {
    var n := ReachedIn(queue, raising);
    if !Fails(queue, raising) { AllHit(queue, raising); }
    forall i | n <= i < |queue| ensures queue[i] !in Hit(queue, raising) {
      DistinctPrefix(queue);
      assert forall j :: 0 <= j < n ==> queue[j] != queue[i];
    }
    forall i | 0 <= i < n ensures queue[i] in Hit(queue, raising) {
      assert queue[..n][i] == queue[i];
    }
    if forall i :: n <= i < |queue| ==> workers[queue[i]].destroyed {
      forall w | w in queue && w !in Hit(queue, raising) ensures workers[w].destroyed {
        var i :| 0 <= i < |queue| && queue[i] == w;
      }
    }
    if Left(workers, queue, raising) == {} {
      forall i | n <= i < |queue| ensures workers[queue[i]].destroyed {
        assert queue[i] !in Left(workers, queue, raising);
      }
    }
  }

  /** An acquire loses nobody exactly if no destruction of a discarded worker fails, or
      there is no candidate and only the dead are behind the first that does. */
  lemma DropsNobody(workers: map<WorkerId, Worker>, p: Popped, raising: set<WorkerId>)
    requires Distinct(p.stale) && forall w :: w in p.stale ==> w in workers
    ensures Dropped(workers, p, raising) == {} <==>
            !Fails(p.stale, raising)
            || (p.candidate == None
                && forall i :: ReachedIn(p.stale, raising) <= i < |p.stale| ==> workers[p.stale[i]].destroyed)
  {
    LeavesNobody(workers, p.stale, raising);
  }

  /** The set of live, not idle workers after a destroy loop over workers that are not idle. */
  lemma OutAfterDoom(workers: map<WorkerId, Worker>, idle: Idle, queue: seq<WorkerId>, raising: set<WorkerId>)
    requires forall w :: w in queue ==> w in workers && !IsIdle(idle, w)
    ensures OutOf(Doomed(workers, Hit(queue, raising)), idle)
            == OutOf(workers, idle) - Elements(queue) + Left(workers, queue, raising)
  {
    hide IsIdle, Hit;
    HitInQueue(queue, raising);
  }

  /** A candidate alive and not idle is out. */
  lemma HeldOut(workers: map<WorkerId, Worker>, idle: Idle, p: Popped)
    requires p.candidate.Some? ==>
               p.candidate.value in workers && !workers[p.candidate.value].destroyed && !IsIdle(idle, p.candidate.value)
               && p.candidate.value !in p.stale
    ensures CandidateOf(p) <= OutOf(workers, idle) - Elements(p.stale)
  {
    hide IsIdle;
  }

  lemma OutIsKnown(workers: map<WorkerId, Worker>, idle: Idle)
    ensures OutOf(workers, idle) <= workers.Keys
  {
    hide IsIdle;
  }

  lemma DroppedIs(workers: map<WorkerId, Worker>, p: Popped, raising: set<WorkerId>)
    ensures Dropped(workers, p, raising)
            == if Fails(p.stale, raising) then Left(workers, p.stale, raising) + CandidateOf(p) else {}
  {
    LeftWithoutFailure(workers, p.stale, raising);
  }

  lemma NothingLeft(all: set<WorkerId>, gone: set<WorkerId>, candidate: set<WorkerId>, got: set<WorkerId>)
    ensures all - gone + {} - candidate + got == all - gone - candidate + got + {}
  {}

  lemma Rejoin(all: set<WorkerId>, gone: set<WorkerId>, candidate: set<WorkerId>, left: set<WorkerId>)
    requires candidate <= all - gone
    ensures all - gone - candidate + (left + candidate) == all - gone + left
  {}

  lemma DroppedAmong(workers: map<WorkerId, Worker>, p: Popped, raising: set<WorkerId>)
    ensures Dropped(workers, p, raising) <= Elements(p.stale) + CandidateOf(p)
  {}

  lemma AtMostOne(queue: seq<WorkerId>, w: WorkerId)
    requires Distinct(queue) && forall v :: v in queue ==> v == w
    ensures queue == if w in queue then [w] else []
  {
    DistinctSize(queue);
    assert Elements(queue) == if w in queue then {w} else {};
  }

  /** The first of a queue is always hit. */
  lemma HitOne(w: WorkerId, raising: set<WorkerId>)
    ensures Hit([w], raising) == {w} && Hit([], raising) == {}
  {
    assert [w][1..] == [];
    assert ReachedIn([w], raising) == 1;
  }

  lemma LeftWithoutFailure(workers: map<WorkerId, Worker>, queue: seq<WorkerId>, raising: set<WorkerId>)
    ensures !Fails(queue, raising) ==> Left(workers, queue, raising) == {} && Hit(queue, raising) == Elements(queue)
  {
    if !Fails(queue, raising) { AllHit(queue, raising); }
  }

  lemma HitInQueue(queue: seq<WorkerId>, raising: set<WorkerId>)
    ensures Hit(queue, raising) <= Elements(queue)
  {}

  lemma OutAfterAdmit(workers: map<WorkerId, Worker>, idle: Idle, w: WorkerId, worker: Worker)
    requires w !in workers && !worker.destroyed && !IsIdle(idle, w)
    ensures OutOf(workers[w := worker], idle) == OutOf(workers, idle) + {w}
  {
    hide IsIdle;
  }

  /** Workers taken off the idle lists come out, if they are alive. */
  lemma OutAfterTake(workers: map<WorkerId, Worker>, before: Idle, after: Idle, taken: set<WorkerId>)
    requires forall w :: IsIdle(after, w) <==> IsIdle(before, w) && w !in taken
    requires forall w :: w in taken ==> IsIdle(before, w)
    ensures OutOf(workers, after) - taken == OutOf(workers, before)
  {
    hide IsIdle;
  }

  ghost predicate SameExcept(before: map<WorkerId, Worker>, after: map<WorkerId, Worker>, touched: set<WorkerId>) {
    forall w :: w in before && w !in touched ==> w in after && after[w] == before[w]
  }

  lemma SameInTwoSteps(a: map<WorkerId, Worker>, b: map<WorkerId, Worker>, c: map<WorkerId, Worker>,
                       first: set<WorkerId>, second: set<WorkerId>)
    ensures SameExcept(a, b, first) && SameExcept(b, c, second) ==> SameExcept(a, c, first + second)
    ensures SameExcept(a, b, first) ==> SameExcept(a, b, first + second)
  {}

  function AttemptsOn(attempts: map<WorkerId, nat>, w: WorkerId): nat {
    if w in attempts then attempts[w] else 0
  }

  /** The backend was asked to destroy exactly the destroyed workers, once each. */
  ghost predicate Tried(workers: map<WorkerId, Worker>, attempts: map<WorkerId, nat>) {
    forall w :: w in workers ==> AttemptsOn(attempts, w) == if workers[w].destroyed then 1 else 0
  }

  lemma AdmitKeepsTried(workers: map<WorkerId, Worker>, attempts: map<WorkerId, nat>, w: WorkerId, worker: Worker)
    requires Tried(workers, attempts) && w !in workers && AttemptsOn(attempts, w) == 0 && !worker.destroyed
    ensures Tried(workers[w := worker], attempts)
  {}

  lemma TriedElsewhere(workers: map<WorkerId, Worker>, attempts: map<WorkerId, nat>, w: WorkerId, n: nat)
    requires Tried(workers, attempts) && w !in workers
    ensures Tried(workers, attempts[w := n])
  {}

  lemma UpdateKeepsTried(workers: map<WorkerId, Worker>, attempts: map<WorkerId, nat>, w: WorkerId, worker: Worker)
    requires Tried(workers, attempts) && w in workers && worker.destroyed == workers[w].destroyed
    ensures Tried(workers[w := worker], attempts)
  {}

  class WorkerPool {
    const idleSeconds: int
    const maxInstalled: nat
    const quota: QuotaBook
    var workers: map<WorkerId, Worker>   // every worker object handed out so far
    var idle: Idle
    var attempts: map<WorkerId, nat>     // calls of backend.destroy

    function Attempts(w: WorkerId): nat reads this {
      AttemptsOn(attempts, w)
    }

    ghost predicate Ok()
      reads this, quota
    {
      && quota.Ok() && Filed(workers, idle) && Balanced(workers, quota.Now())
      && Tried(workers, attempts)
    }

    constructor (book: QuotaBook, idleSeconds: int, maxInstalled: nat)
      requires book.Ok() && book.Now() == Counts(0, map[])
      ensures Ok() && quota == book && idle == map[] && workers == map[]
      ensures this.idleSeconds == idleSeconds && this.maxInstalled == maxInstalled
    {
      quota := book;
      this.idleSeconds := idleSeconds;
      this.maxInstalled := maxInstalled;
      workers, idle, attempts := map[], map[], map[];
    }

    predicate IdleExpired(w: Worker, now: int) {
      w.destroyed || !w.healthy || now - w.lastUsed > idleSeconds
    }

    /** Not to be handed out for this release. */
    predicate Unusable(w: Worker, release: string, now: int) {
      IdleExpired(w, now) || (release !in w.installed && |w.installed| >= maxInstalled)
    }

    function Bad(bucket: seq<WorkerId>, release: string, now: int): set<WorkerId>
      reads this
    {
      set w | w in bucket && w in workers && Unusable(workers[w], release, now)
    }

    /** What an acquire at this time would pop, and what it would lose. */
    function Pops(key: PoolKey, release: string, now: int): Popped
      reads this
    {
      PopFrom(Bucket(idle, key), Bad(Bucket(idle, key), release, now))
    }

    function Loses(key: PoolKey, release: string, now: int, raises: set<WorkerId>): set<WorkerId>
      reads this
    {
      Dropped(workers, Pops(key, release, now), Raising(workers, raises))
    }

    /** The pop loop of acquire. */
    method PopBucket(start: seq<WorkerId>, release: string, now: int) returns (p: Popped)
      requires forall w :: w in start ==> w in workers
      ensures p == PopFrom(start, Bad(start, release, now))
    {
      var stale, candidate := [], None;
      var bucket := start;
      ghost var bad := Bad(start, release, now);
      assert forall w :: w in start ==> (w in bad <==> Unusable(workers[w], release, now));
      hide Bad, Unusable;
      while bucket != [] && candidate == None
        invariant bucket <= start
        invariant candidate == None ==>
                    PopFrom(start, bad) == var p := PopFrom(bucket, bad);
                                           Popped(p.rest, stale + p.stale, p.candidate)
        invariant candidate.Some? ==> PopFrom(start, bad) == Popped(bucket, stale, candidate)
        decreases |bucket|, candidate == None
      {
        var worker := bucket[|bucket| - 1];
        bucket := bucket[..|bucket| - 1];
        if Unusable(workers[worker], release, now) {
          stale := stale + [worker];
        } else {
          candidate := Some(worker);
        }
      }
      p := Popped(bucket, stale, candidate);
    }

    /** Backend destruction and the release of the reservation happen once per worker. */
    method Destroy(w: WorkerId, backendRaises: bool) returns (raised: bool)
      requires Ok() && w in workers
      modifies this`workers, this`attempts, quota
      ensures Ok()
      ensures workers == old(workers)[w := old(workers)[w].(destroyed := true)]
      ensures attempts == if old(workers)[w].destroyed then old(attempts) else old(attempts)[w := 1]
      ensures raised == (backendRaises && !old(workers)[w].destroyed)
    {
      if workers[w].destroyed { return false; }
      DestroyKeepsBalance(workers, quota.Now(), w);
      workers := workers[w := workers[w].(destroyed := true)];
      attempts := attempts[w := Attempts(w) + 1];
      raised := backendRaises;
      quota.ReleaseLive(workers[w].key.tenant);
    }

    method DestroyAll(queue: seq<WorkerId>, raises: set<WorkerId>) returns (raised: bool)
      requires Ok() && Distinct(queue) && forall w :: w in queue ==> w in workers
      modifies this`workers, this`attempts, quota
      ensures Ok()
      ensures workers == Doomed(old(workers), Hit(queue, Raising(old(workers), raises)))
      ensures raised <==> Fails(queue, Raising(old(workers), raises))
      ensures forall w :: w !in workers ==> Attempts(w) == old(Attempts(w))
    {
      hide Ok, Distinct, Doomed, Elements, Hit;
      DistinctPrefix(queue);
      ghost var raising := Raising(workers, raises);
      var i := 0;
      raised := false;
      NoneDoomed(workers, queue);
      while i < |queue| && !raised
        invariant i <= |queue| && Ok()
        invariant workers == Doomed(old(workers), Elements(queue[..i]))
        invariant forall j :: 0 <= j < i - 1 ==> queue[j] !in raising
        invariant 0 < i ==> (raised <==> queue[i - 1] in raising)
        invariant i == 0 ==> !raised
        invariant forall w :: w !in workers ==> Attempts(w) == old(Attempts(w))
        decreases |queue| - i, !raised
      {
        DoomStep(old(workers), queue, i);
        raised := Destroy(queue[i], queue[i] in raises);
        i := i + 1;
      }
      HitIs(queue, raising, i);
    }

    method Invalidate(w: WorkerId, backendRaises: bool)
      requires Ok() && w in workers
      modifies this`workers, this`attempts, quota
      ensures Ok()
      ensures workers == old(workers)[w := old(workers)[w].(healthy := false, destroyed := true)]
      ensures forall v :: v !in workers ==> Attempts(v) == old(Attempts(v))
    {
      SameHolders(workers, quota.Now(), w, workers[w].(healthy := false));
      workers := workers[w := workers[w].(healthy := false)];
      var _ := Destroy(w, backendRaises);
    }

    /** A worker that comes back goes to the idle list it came from, or is destroyed. */
    method Release(w: WorkerId, now: int, reuse: bool, backendRaises: bool) returns (raised: bool)
      requires Ok() && w in workers && !IsIdle(idle, w)
      modifies this`workers, this`attempts, this`idle, quota
      ensures Ok()
      ensures var back := old(workers)[w].healthy && !old(workers)[w].destroyed && reuse;
              && idle == (if back then AfterAppend(old(idle), old(workers)[w].key, w) else old(idle))
              && workers == old(workers)[w := old(workers)[w].(runs := old(workers)[w].runs + 1,
                                                               lastUsed := now,
                                                               destroyed := !back)]
              && raised == (!back && !old(workers)[w].destroyed && backendRaises)
      ensures forall v :: v !in workers ==> Attempts(v) == old(Attempts(v))
    {
      hide Balanced, Sane, Tried;
      var worker := workers[w].(runs := workers[w].runs + 1, lastUsed := now);
      SameHolders(workers, quota.Now(), w, worker);
      UpdateKeepsTried(workers, attempts, w, worker);
      workers := workers[w := worker];
      if worker.destroyed || !worker.healthy || !reuse {
        raised := Destroy(w, backendRaises);
      } else {
        assert w !in Bucket(idle, worker.key);
        idle := AfterAppend(idle, worker.key, w);
        raised := false;
      }
    }

    /** Keeps some of a bucket, in order, and takes out the rest. */
    method Partition(bucket: seq<WorkerId>, out: set<WorkerId>)
      returns (kept: seq<WorkerId>, taken: seq<WorkerId>)
      requires Distinct(bucket)
      ensures kept == Without(bucket, out)
      ensures Distinct(taken) && forall w :: w in taken <==> w in bucket && w in out
    {
      kept, taken := [], [];
      assert bucket[..0] == [];
      for i := 0 to |bucket|
        invariant kept == Without(bucket[..i], out)
        invariant Distinct(taken) && forall w :: w in taken <==> w in bucket[..i] && w in out
      {
        assert bucket[..i + 1] == bucket[..i] + [bucket[i]];
        WithoutAppends(bucket[..i], bucket[i], out);
        assert bucket[i] !in bucket[..i];
        if bucket[i] in out {
          taken := taken + [bucket[i]];
        } else {
          kept := kept + [bucket[i]];
        }
      }
      assert bucket[..|bucket|] == bucket;
    }

    /** The sweep over all idle lists shared by reap and the retirements. */
    method Take(out: set<WorkerId>) returns (swept: Idle, taken: seq<WorkerId>)
      requires Filed(workers, idle)
      ensures swept == Sweep(idle, out)
      ensures Distinct(taken) && forall w :: w in taken <==> w in out && IsIdle(idle, w)
    {
      hide Sweep, Among, IsIdle, Without;
      swept, taken := map[], [];
      var done: set<PoolKey> := {};
      NoBucket(idle, out);
      while done != idle.Keys
        invariant done <= idle.Keys
        invariant swept == Sweep(Among(idle, done), out)
        invariant Distinct(taken) && forall w :: w in taken <==> w in out && IsIdle(Among(idle, done), w)
        decreases idle.Keys - done
      {
        var key :| key in idle && key !in done;
        var kept, more := Partition(idle[key], out);
        if kept != [] { swept := swept[key := kept]; }
        OneMoreBucket(workers, idle, done, key, out);
        Joined(taken, more);
        taken := taken + more;
        done := done + {key};
      }
    }

    /** Take the workers in `out` off the idle lists, then destroy them. When the backend
        fails, the live workers behind the failure stay off the lists, on the books. */
    method SweepOut(out: set<WorkerId>, raises: set<WorkerId>) returns (taken: seq<WorkerId>, raised: bool)
      requires Ok()
      modifies this`workers, this`attempts, this`idle, quota
      ensures Ok()
      ensures forall w :: IsIdle(idle, w) <==> IsIdle(old(idle), w) && w !in out
      ensures Distinct(taken) && forall w :: w in taken <==> w in out && IsIdle(old(idle), w)
      ensures forall w :: w in taken ==> w in old(workers)
      ensures workers == Doomed(old(workers), Hit(taken, Raising(old(workers), raises)))
      ensures raised <==> Fails(taken, Raising(old(workers), raises))
      ensures Out() == old(Out()) + Left(old(workers), taken, Raising(old(workers), raises))
    {
      hide Sweep, Among, IsIdle, Without, Balanced, Distinct, Hit, OutOf, Left;
      var swept;
      swept, taken := Take(out);
      SweepLeaves(idle, out);
      SweepStaysFiled(workers, idle, out);
      IdleAreKnown(workers, idle);
      OutAfterTake(workers, idle, swept, Elements(taken));
      OutAfterDoom(workers, swept, taken, Raising(workers, raises));
      idle := swept;
      raised := DestroyAll(taken, raises);
    }

    /** The expired idle workers leave their lists, in the order `stale`; the destroy loop
        hits them up to the first failure, and only without one is their number returned. */
    method Reap(now: int, raises: set<WorkerId>) returns (reaped: Option<nat>, ghost stale: seq<WorkerId>)
      requires Ok()
      modifies this`workers, this`attempts, this`idle, quota
      ensures Ok() && workers.Keys == old(workers).Keys
      ensures forall w :: IsIdle(idle, w) <==>
                          IsIdle(old(idle), w) && !(w in old(workers) && IdleExpired(old(workers)[w], now))
      ensures forall w :: IsIdle(old(idle), w) && w in old(workers) ==>
                var worker := old(workers)[w];
                IsIdle(idle, w) <==> worker.healthy && !worker.destroyed && now <= worker.lastUsed + idleSeconds
      ensures Distinct(stale)
      ensures Elements(stale) == set w | w in old(workers) && IsIdle(old(idle), w) && IdleExpired(old(workers)[w], now)
      ensures workers == Doomed(old(workers), Hit(stale, Raising(old(workers), raises)))
      ensures Out() == old(Out()) + Left(old(workers), stale, Raising(old(workers), raises))
      ensures reaped.None? <==> Fails(stale, Raising(old(workers), raises))
      ensures reaped.Some? ==>
                && reaped.value == |Elements(stale)|
                && forall w :: w in stale && w in workers ==> workers[w].destroyed
    {
      hide IsIdle, Balanced, Distinct, Filed, Hit, OutOf, Left;
      var out := set w | w in workers && IdleExpired(workers[w], now);
      var taken, raised := SweepOut(out, raises);
      stale := taken;
      DistinctSize(taken);
      if !raised { AllHit(taken, Raising(old(workers), raises)); }
      assert Elements(stale) == set w | w in old(workers) && IsIdle(old(idle), w) && IdleExpired(old(workers)[w], now);
      reaped := if raised then None else Some(|taken|);
    }

    /** A worker given back is handed out next to whoever asks for its key, exactly if it
        is still fresh, can hold the release and its backend can prepare it. */
    method ReleaseThenAcquire(w: WorkerId, released: int, release: string, now: int, f: Faults) returns (out: Acquired)
      requires Ok() && w in workers && workers[w].healthy && !workers[w].destroyed && !IsIdle(idle, w)
      requires f.created.Some? ==> f.created.value !in workers && Attempts(f.created.value) == 0
      modifies this`workers, this`attempts, this`idle, quota
      ensures Ok()
      ensures var had := release in old(workers)[w].installed;
              out == Got(w) <==>
              && now <= released + idleSeconds && !f.renewRaises
              && (had || (|old(workers)[w].installed| < maxInstalled && !f.installRaises))
      ensures out == Got(w) ==> w in workers && workers[w].runs == old(workers)[w].runs + 1
    {
      hide IsIdle, Balanced, Sane, Filed, Tried, Dropped, OutOf, Explained, AfterPop, SameExcept;
      var key := workers[w].key;
      var raised := Release(w, released, true, false);
      var bucket := Bucket(idle, key);
      assert bucket[|bucket| - 1] == w && bucket == bucket[..|bucket| - 1] + [w];
      ghost var bad := Bad(bucket, release, now);
      ghost var given := workers[w];
      PopSplits(bucket, bad);
      LastFirst(bucket, bad);
      PopStaysFiled(workers, idle, key, bad);
      out := Acquire(key, release, now, f);
    }

    /** After the idle workers of a runtime are retired, none of its workers is idle; the
        list is returned only if no destruction fails. */
    method RetireRuntime(runtime: string, raises: set<WorkerId>)
      returns (retired: Option<seq<WorkerId>>, ghost queue: seq<WorkerId>)
      requires Ok()
      modifies this`workers, this`attempts, this`idle, quota
      ensures Ok() && workers.Keys == old(workers).Keys
      ensures forall w :: IsIdle(idle, w) <==>
                          IsIdle(old(idle), w) && !(w in old(workers) && old(workers)[w].key.runtime == runtime)
      ensures Distinct(queue) && forall w :: w in queue <==> IsIdle(old(idle), w) && !IsIdle(idle, w)
      ensures workers == Doomed(old(workers), Hit(queue, Raising(old(workers), raises)))
      ensures Out() == old(Out()) + Left(old(workers), queue, Raising(old(workers), raises))
      ensures retired == if Fails(queue, Raising(old(workers), raises)) then None else Some(queue)
      ensures retired.Some? ==> forall w :: w in queue && w in workers ==> workers[w].destroyed
    {
      hide IsIdle, Balanced, Distinct, Filed, Hit, OutOf, Left;
      var out := set w | w in workers && workers[w].key.runtime == runtime;
      var taken, raised := SweepOut(out, raises);
      queue := taken;
      if !raised { AllHit(taken, Raising(old(workers), raises)); }
      retired := if raised then None else Some(taken);
    }

    /** One worker is destroyed if it was idle, whether or not the backend fails. */
    method RetireIdleWorker(w: WorkerId, raises: set<WorkerId>) returns (found: bool, raised: bool)
      requires Ok()
      modifies this`workers, this`attempts, this`idle, quota
      ensures Ok()
      ensures found == IsIdle(old(idle), w)
      ensures forall v :: IsIdle(idle, v) <==> IsIdle(old(idle), v) && v != w
      ensures workers == Doomed(old(workers), if found then {w} else {})
      ensures raised <==> found && w in Raising(old(workers), raises)
      ensures Out() == old(Out())
    {
      hide IsIdle, Balanced, Filed, OutOf;
      ghost var raising := Raising(workers, raises);
      var taken;
      taken, raised := SweepOut({w}, raises);
      found := w in taken;
      AtMostOne(taken, w);
      HitOne(w, raising);
    }

    ghost function Out(): set<WorkerId>
      reads this
    {
      OutOf(workers, idle)
    }

    /** What can come back from an acquire. */
    ghost predicate Ready(w: WorkerId, key: PoolKey, release: string)
      reads this
    {
      w in workers && workers[w].key == key && workers[w].healthy && !workers[w].destroyed
      && release in workers[w].installed && !IsIdle(idle, w)
    }

    /** The worker as it was, with the release installed and used now. */
    predicate Prepared(w: WorkerId, before: Worker, release: string, now: int)
      reads this
    {
      w in workers && workers[w] == before.(installed := before.installed + {release}, lastUsed := now)
    }

    /** All other workers are as they were. */
    twostate predicate SameBut(touched: set<WorkerId>)
      reads this
    {
      SameExcept(old(workers), workers, touched)
    }

    /** The backend can make this worker ready for the release. */
    predicate Prepares(w: Worker, release: string, f: Faults) {
      !f.renewRaises && (release in w.installed || !f.installRaises)
    }

    /** A popped worker is made ready, or destroyed when its backend fails. */
    method Reuse(w: WorkerId, release: string, now: int, f: Faults) returns (out: Acquired)
      requires Ok() && w in workers && workers[w].healthy && !workers[w].destroyed && !IsIdle(idle, w)
      modifies this`workers, this`attempts, quota
      ensures Ok() && SameBut({w}) && workers.Keys == old(workers).Keys
      ensures out == Got(w) || (out == BackendRaised && w in workers && workers[w].destroyed)
      ensures out == Got(w) <==> Prepares(old(workers)[w], release, f)
      ensures out == Got(w) ==> Ready(w, old(workers)[w].key, release) && Prepared(w, old(workers)[w], release, now)
      ensures Out() == old(Out()) - (if out.Got? then {} else {w})
      ensures forall v :: v !in workers ==> Attempts(v) == old(Attempts(v))
    {
      hide Balanced, Sane, Tried;
      if f.renewRaises || (release !in workers[w].installed && f.installRaises) {
        Invalidate(w, w in f.destroyRaises);
        return BackendRaised;
      }
      var worker := workers[w].(installed := workers[w].installed + {release}, lastUsed := now);
      SameHolders(workers, quota.Now(), w, worker);
      UpdateKeepsTried(workers, attempts, w, worker);
      workers := workers[w := worker];
      out := Got(w);
    }

    /** Why an acquire without a candidate ended as it did: refused exactly while a cap is
        reached, failed exactly through the backend, and otherwise the new worker. */
    ghost predicate Explained(key: PoolKey, f: Faults, out: Acquired)
      reads this
    {
      match out
      case QuotaRefused(verdict) =>
        && !Room(workers, quota.caps, key.tenant)
        && verdict == if |Living(workers)| >= quota.caps.live then GlobalQuota else TenantQuota
      case BackendRaised =>
        Room(workers, quota.caps, key.tenant) && (f.created == None || f.installRaises)
      case Got(w) =>
        f.created == Some(w) && !f.installRaises && Room(workers - {w}, quota.caps, key.tenant)
    }

    /** Reserve, create, install; a sandbox that fails half-way is destroyed and its
        reservation released. */
    method Create(key: PoolKey, release: string, now: int, f: Faults) returns (out: Acquired)
      requires Ok()
      requires f.created.Some? ==> f.created.value !in workers && Attempts(f.created.value) == 0
      modifies this`workers, this`attempts, quota
      ensures Ok() && SameBut({})
      ensures Explained(key, f, out)
      ensures out.Got? ==> f.created == Some(out.worker) && Ready(out.worker, key, release)
      ensures out.Got? ==> workers[out.worker] == Worker(key, true, false, 0, {release}, now)
      ensures workers.Keys == old(workers).Keys + (if out.Got? then {out.worker} else {})
      ensures !out.Got? ==> workers == old(workers) && quota.Now() == old(quota.Now())
      ensures Out() == old(Out()) + (if out.Got? then {out.worker} else {})
      ensures forall w :: Attempts(w) <= old(Attempts(w)) + 1
      ensures forall w :: w !in workers && f.created != Some(w) ==> Attempts(w) == old(Attempts(w))
    {
      hide Filed, Balanced, Sane, IsIdle, Room, OutOf, Tried;
      RoomGrants(workers, quota.Now(), quota.caps, key.tenant);
      hide Living, Holders;
      ghost var before := quota.Now();
      var verdict := quota.ReserveLive(key.tenant);
      if verdict != Granted { return QuotaRefused(verdict); }
      hide Reserve;
      out := CreateReserved(key, release, now, f, before);
    }

    method CreateReserved(key: PoolKey, release: string, now: int, f: Faults, ghost before: Counts)
      returns (out: Acquired)
      requires quota.Ok() && Filed(workers, idle) && Tried(workers, attempts) && Balanced(workers, before)
      requires Reserve(before, quota.caps, key.tenant) == (quota.Now(), Granted) && Sane(before, quota.caps)
      requires Room(workers, quota.caps, key.tenant)
      requires f.created.Some? ==> f.created.value !in workers && Attempts(f.created.value) == 0
      modifies this`workers, this`attempts, quota
      ensures Ok() && Explained(key, f, out) && !out.QuotaRefused?
      ensures out.Got? ==> f.created == Some(out.worker) && Ready(out.worker, key, release)
      ensures workers == if out.Got? then old(workers)[out.worker := Worker(key, true, false, 0, {release}, now)]
                         else old(workers)
      ensures !out.Got? ==> quota.Now() == before
      ensures attempts == if !out.Got? && f.created.Some? then old(attempts)[f.created.value := 1] else old(attempts)
      ensures Out() == old(Out()) + (if out.Got? then {out.worker} else {})
    {
      hide Filed, Balanced, Sane, IsIdle, Room, OutOf, Tried, Living, Holders, Reserve;
      if f.created == None || f.installRaises {
        Abort(key.tenant, f.created, before);
        return BackendRaised;
      }
      Admit(f.created.value, Worker(key, true, false, 0, {release}, now), before);
      assert workers - {f.created.value} == old(workers);
      out := Got(f.created.value);
    }

    /** A creation that failed: its sandbox, if there is one, is destroyed, and the
        reservation given back. */
    method Abort(tenant: string, created: Option<WorkerId>, ghost before: Counts)
      requires quota.Ok() && Filed(workers, idle) && Tried(workers, attempts) && Balanced(workers, before)
      requires Reserve(before, quota.caps, tenant) == (quota.Now(), Granted) && Sane(before, quota.caps)
      requires created.Some? ==> created.value !in workers && Attempts(created.value) == 0
      modifies this`attempts, quota
      ensures Ok() && quota.Now() == before
      ensures attempts == if created.Some? then old(attempts)[created.value := 1] else old(attempts)
    {
      hide Filed, Balanced, Sane, Tried, Reserve, Quota.Release;
      ReleaseUndoesReserve(before, quota.caps, tenant);
      if created.Some? {
        TriedElsewhere(workers, attempts, created.value, 1);
        attempts := attempts[created.value := Attempts(created.value) + 1];
      }
      quota.ReleaseLive(tenant);
    }

    /** The new worker takes over the reservation. */
    method Admit(w: WorkerId, worker: Worker, ghost before: Counts)
      requires quota.Ok() && Filed(workers, idle) && Tried(workers, attempts) && Balanced(workers, before)
      requires Reserve(before, quota.caps, worker.key.tenant) == (quota.Now(), Granted)
      requires w !in workers && Attempts(w) == 0 && !worker.destroyed
      modifies this`workers
      ensures Ok() && workers == old(workers)[w := worker] && !IsIdle(idle, w)
      ensures Out() == old(Out()) + {w}
    {
      hide Filed, Balanced, Sane, IsIdle, OutOf, Tried, Reserve;
      IdleAreKnown(workers, idle);
      AdmitKeepsBalance(workers, before, quota.caps, w, worker);
      AdmitKeepsFiled(workers, idle, w, worker);
      AdmitKeepsTried(workers, attempts, w, worker);
      OutAfterAdmit(workers, idle, w, worker);
      workers := workers[w := worker];
    }

    /** The locked part of acquire. */
    method PopCandidate(key: PoolKey, release: string, now: int) returns (p: Popped)
      requires Ok()
      modifies this`idle
      ensures Ok()
      ensures p == old(Pops(key, release, now)) && idle == AfterPop(old(idle), key, p)
      ensures Takeable(p, key)
      ensures Out() - Elements(p.stale) - CandidateOf(p) == old(Out())
    {
      hide Filed, Balanced, Distinct, IsIdle, Sane, OutOf;
      ghost var bad := Bad(Bucket(idle, key), release, now);
      BucketIsKnown(workers, idle, key);
      BucketIsIdle(idle, key);
      p := PopBucket(Bucket(idle, key), release, now);
      PopStaysFiled(workers, idle, key, bad);
      PopSplits(Bucket(idle, key), bad);
      PopTakes(workers, idle, key, bad);
      OutAfterTake(workers, idle, AfterPop(idle, key, p), Elements(p.stale) + CandidateOf(p));
      idle := if p.rest == [] then idle - {key} else idle[key := p.rest];
    }

    /** When an acquire loses nobody. */
    lemma LosesNobody(key: PoolKey, release: string, now: int, raises: set<WorkerId>)
      requires Ok()
      ensures var p, raising := Pops(key, release, now), Raising(workers, raises);
              && (forall w :: w in p.stale ==> w in workers)
              && (Loses(key, release, now, raises) == {} <==>
                  || !Fails(p.stale, raising)
                  || (p.candidate == None
                      && forall i :: ReachedIn(p.stale, raising) <= i < |p.stale| ==> workers[p.stale[i]].destroyed))
    {
      PopStaysFiled(workers, idle, key, Bad(Bucket(idle, key), release, now));
      DropsNobody(workers, Pops(key, release, now), Raising(workers, raises));
    }

    /** What is handed out is ready, what is discarded is destroyed up to the first
        failure of the backend, and exactly Loses is lost. */
    method Acquire(key: PoolKey, release: string, now: int, f: Faults) returns (out: Acquired)
      requires Ok()
      requires f.created.Some? ==> f.created.value !in workers && Attempts(f.created.value) == 0
      modifies this`workers, this`attempts, this`idle, quota
      ensures Ok()
      ensures out.Got? ==> Ready(out.worker, key, release) && out.worker !in old(Out())
      ensures var p := old(Pops(key, release, now));
              && idle == AfterPop(old(idle), key, p)
              && SettledPop(old(workers), p, Raising(old(workers), f.destroyRaises), out)
              && (!Fails(p.stale, Raising(old(workers), f.destroyRaises)) ==>
                    Decided(old(workers), p, key, release, f, out))
              && SameBut(Elements(p.stale) + CandidateOf(p))
              && (out.Got? ==> p.candidate == Some(out.worker)
                               || (p.candidate == None && f.created == Some(out.worker)))
      ensures out.Got? ==> if out.worker in old(workers)
                           then Prepared(out.worker, old(workers)[out.worker], release, now)
                           else workers[out.worker] == Worker(key, true, false, 0, {release}, now)
      ensures var p := old(Pops(key, release, now));
              p.stale == [] ==> (out.Got? <==> Provides(old(workers), p, key, release, f))
      ensures workers.Keys == old(workers).Keys + (if out.Got? then {out.worker} else {})
      ensures Out() == old(Out()) + (if out.Got? then {out.worker} else {})
                       + old(Loses(key, release, now, f.destroyRaises))
      ensures out.Got? ==> old(Loses(key, release, now, f.destroyRaises)) == {}
      ensures old(Loses(key, release, now, f.destroyRaises) * Out()) == {}
    {
      hide Ok, IsIdle, PopFrom, AfterPop, SettledPop, Dropped, OutOf, Decided, Fails, Prepared, Provides;
      var p := PopCandidate(key, release, now);
      DroppedAmong(workers, p, Raising(workers, f.destroyRaises));
      OutIsKnown(workers, idle);
      out := HandOut(p, key, release, now, f);
      if p.stale == [] {
        NothingFails(Raising(old(workers), f.destroyRaises));
        ProvidedExactly(old(workers), p, key, release, f, out);
      }
    }

    /** An acquire with nothing to discard first gets a worker: its candidate if that can be
        prepared, without one a new worker if both caps leave room and the backend serves. */
    ghost predicate Provides(before: map<WorkerId, Worker>, p: Popped, key: PoolKey, release: string, f: Faults) {
      if p.candidate.Some?
      then p.candidate.value in before && Prepares(before[p.candidate.value], release, f)
      else Room(before, quota.caps, key.tenant) && f.created.Some? && !f.installRaises
    }

    lemma ProvidedExactly(before: map<WorkerId, Worker>, p: Popped, key: PoolKey, release: string, f: Faults,
                          out: Acquired)
      requires p.stale == [] && Decided(before, p, key, release, f, out)
      requires SameExcept(before, workers, Elements(p.stale) + CandidateOf(p))
      requires workers.Keys == before.Keys + (if out.Got? then {out.worker} else {})
      requires f.created.Some? ==> f.created.value !in before
      ensures out.Got? <==> Provides(before, p, key, release, f)
    {
      hide Room;
      if p.candidate == None {
        if out.Got? { assert workers - {out.worker} == before; } else { assert workers == before; }
      }
    }

    /** The rest of acquire, outside the lock. */
    method HandOut(p: Popped, key: PoolKey, release: string, now: int, f: Faults) returns (out: Acquired)
      requires Ok() && Takeable(p, key)
      requires f.created.Some? ==> f.created.value !in workers && Attempts(f.created.value) == 0
      modifies this`workers, this`attempts, quota
      ensures Ok()
      ensures Handed(old(workers), p, key, release, now, f, out)
      ensures SettledPop(old(workers), p, Raising(old(workers), f.destroyRaises), out)
      ensures !Fails(p.stale, Raising(old(workers), f.destroyRaises)) ==>
                Decided(old(workers), p, key, release, f, out)
      ensures SameBut(Elements(p.stale) + CandidateOf(p))
      ensures workers.Keys == old(workers).Keys + (if out.Got? then {out.worker} else {})
      ensures Out() == old(Out()) - Elements(p.stale) - CandidateOf(p) + (if out.Got? then {out.worker} else {})
                       + Dropped(old(workers), p, Raising(old(workers), f.destroyRaises))
      ensures out.Got? ==> Dropped(old(workers), p, Raising(old(workers), f.destroyRaises)) == {}
    {
      hide Ok, Distinct, IsIdle, Hit, Prepared, Raising, OutOf, Left, Fails, Dropped;
      ghost var raising := Raising(workers, f.destroyRaises);
      HeldOut(workers, idle, p);
      assert CandidateOf(p) <= Out() - Elements(p.stale);
      hide Out;
      LeftWithoutFailure(workers, p.stale, raising);
      DroppedIs(workers, p, raising);
      hide Decided, SettledPop, Discarded, Takeable, Handed, SameExcept, Elements, CandidateOf;
      var raised := DiscardStale(p, key, f.destroyRaises);
      ghost var between := workers;
      if raised {
        SameInTwoSteps(old(workers), between, between, Elements(p.stale), CandidateOf(p));
        Rejoin(old(Out()), Elements(p.stale), CandidateOf(p), Left(old(workers), p.stale, raising));
        HandedNothing(old(workers), p, key, release, now, f);
        return BackendRaised;
      }
      out := Supply(old(workers), p, raising, key, release, now, f);
      SameInTwoSteps(old(workers), between, workers, Elements(p.stale), CandidateOf(p));
      NothingLeft(old(Out()), Elements(p.stale), CandidateOf(p), if out.Got? then {out.worker} else {});
    }

    /** What is handed out: the popped worker made ready, or the new one. */
    ghost predicate Handed(before: map<WorkerId, Worker>, p: Popped, key: PoolKey, release: string, now: int,
                           f: Faults, out: Acquired)
      reads this
    {
      out.Got? ==>
        && Ready(out.worker, key, release)
        && (p.candidate == Some(out.worker) || (p.candidate == None && f.created == Some(out.worker)))
        && (if p.candidate.Some? then out.worker in before && Prepared(out.worker, before[out.worker], release, now)
            else workers[out.worker] == Worker(key, true, false, 0, {release}, now))
    }

    lemma HandedNothing(before: map<WorkerId, Worker>, p: Popped, key: PoolKey, release: string, now: int, f: Faults)
      ensures Handed(before, p, key, release, now, f, BackendRaised)
    {}

    /** How an acquire ends when its discarded workers could be destroyed: with the
        candidate exactly if the backend can prepare it, else as Explained. */
    ghost predicate Decided(before: map<WorkerId, Worker>, p: Popped, key: PoolKey, release: string, f: Faults,
                            out: Acquired)
      reads this
    {
      match p.candidate
      case Some(w) => w in before && (out.Got? <==> Prepares(before[w], release, f))
      case None => Explained(key, f, out)
    }

    /** The end of an acquire whose discarded workers are all destroyed. */
    method Supply(ghost before: map<WorkerId, Worker>, p: Popped, ghost raising: set<WorkerId>,
                  key: PoolKey, release: string, now: int, f: Faults) returns (out: Acquired)
      requires Ok() && Takeable(p, key) && !Fails(p.stale, raising)
      requires Discarded(before, p, raising)
      requires f.created.Some? ==> f.created.value !in workers && Attempts(f.created.value) == 0
      modifies this`workers, this`attempts, quota
      ensures Ok() && SettledPop(before, p, raising, out) && SameBut(CandidateOf(p))
      ensures Handed(before, p, key, release, now, f, out)
      ensures Decided(before, p, key, release, f, out)
      ensures workers.Keys == old(workers).Keys + (if out.Got? then {out.worker} else {})
      ensures Out() == old(Out()) - CandidateOf(p) + (if out.Got? then {out.worker} else {})
    {
      hide Ok, Distinct, IsIdle, Hit, Prepared, OutOf, Fails, Explained, Prepares;
      out := Provide(p.candidate, key, release, now, f);
    }

    /** The destroy loop of an acquire, over workers that are no longer idle. */
    method DiscardStale(p: Popped, key: PoolKey, raises: set<WorkerId>) returns (raised: bool)
      requires Ok() && Takeable(p, key)
      modifies this`workers, this`attempts, quota
      ensures Ok() && Takeable(p, key) && SameBut(Elements(p.stale)) && workers.Keys == old(workers).Keys
      ensures raised <==> Fails(p.stale, Raising(old(workers), raises))
      ensures raised ==> SettledPop(old(workers), p, Raising(old(workers), raises), BackendRaised)
      ensures !raised ==> Discarded(old(workers), p, Raising(old(workers), raises))
      ensures Out() == old(Out()) - Elements(p.stale) + Left(old(workers), p.stale, Raising(old(workers), raises))
      ensures forall w :: w !in workers ==> Attempts(w) == old(Attempts(w))
    {
      hide Ok, Distinct, IsIdle, Hit, Doomed, Raising, OutOf, Left, Fails;
      DoomsOnlyQueue(workers, p.stale, Raising(workers, raises));
      OutAfterDoom(workers, idle, p.stale, Raising(workers, raises));
      raised := DestroyAll(p.stale, raises);
    }

    /** The discarded workers are settled, the candidate is as it was. */
    ghost predicate Discarded(before: map<WorkerId, Worker>, p: Popped, raising: set<WorkerId>)
      reads this
    {
      && (forall w :: w in p.stale ==>
            && w in before && w in workers
            && (workers[w].destroyed <==> before[w].destroyed || w in Hit(p.stale, raising)))
      && (p.candidate.Some? ==>
            p.candidate.value in before && p.candidate.value in workers
            && workers[p.candidate.value] == before[p.candidate.value])
    }

    /** The popped worker, or a new one. */
    method Provide(candidate: Option<WorkerId>, key: PoolKey, release: string, now: int, f: Faults)
      returns (out: Acquired)
      requires Ok() && (candidate.Some? ==> Alive(candidate.value, key))
      requires f.created.Some? ==> f.created.value !in workers && Attempts(f.created.value) == 0
      modifies this`workers, this`attempts, quota
      ensures Ok() && SameBut(if candidate.Some? then {candidate.value} else {})
      ensures workers.Keys == old(workers).Keys + (if out.Got? then {out.worker} else {})
      ensures out.Got? ==> Ready(out.worker, key, release)
      ensures Out() == old(Out()) - (if candidate.Some? then {candidate.value} else {})
                       + (if out.Got? then {out.worker} else {})
      ensures match candidate
              case Some(w) =>
                && (out == Got(w) <==> Prepares(old(workers)[w], release, f))
                && w in workers && (out == Got(w) || (out == BackendRaised && workers[w].destroyed))
                && (out == Got(w) ==> Prepared(w, old(workers)[w], release, now))
              case None =>
                && Explained(key, f, out)
                && (out.Got? ==> f.created == Some(out.worker)
                                 && workers[out.worker] == Worker(key, true, false, 0, {release}, now))
    {
      hide Ok, IsIdle, Explained;
      if candidate.Some? {
        out := Reuse(candidate.value, release, now, f);
      } else {
        out := Create(key, release, now, f);
      }
    }

    ghost predicate Alive(w: WorkerId, key: PoolKey)
      reads this
    {
      w in workers && workers[w].key == key && workers[w].healthy && !workers[w].destroyed && !IsIdle(idle, w)
    }

    ghost predicate Takeable(p: Popped, key: PoolKey)
      reads this
    {
      && Distinct(p.stale) && (forall w :: w in p.stale ==> w in workers && !IsIdle(idle, w))
      && (p.candidate.Some? ==> p.candidate.value !in p.stale && Alive(p.candidate.value, key))
    }

    /** A discarded worker ends destroyed exactly if it was before or the destroy loop got
        to it. The candidate is lost alive if that loop failed, and otherwise handed out
        or destroyed. */
    ghost predicate SettledPop(before: map<WorkerId, Worker>, p: Popped, raising: set<WorkerId>, out: Acquired)
      reads this
    {
      && (forall w :: w in p.stale ==>
            && w in before && w in workers
            && (workers[w].destroyed <==> before[w].destroyed || w in Hit(p.stale, raising)))
      && (Fails(p.stale, raising) ==> out == BackendRaised)
      && (p.candidate.Some? ==>
            var w := p.candidate.value;
            && w in workers
            && (Fails(p.stale, raising) ==> !workers[w].destroyed)
            && (!Fails(p.stale, raising) && out != Got(w) ==> workers[w].destroyed))
    }
  }
}
