/** What one thread of the execution plane does when nobody interferes: the ways to get a
    worker, and to be rid of it. */
module PlaneAlone {
  import opened Wrappers
  import opened Pool
  import opened Quota
  import opened Plane

  lemma Chain(s: State, step: Step, rest: seq<Step>)
    requires Enabled(s, step) && Legal(Next(s, step), rest)
    ensures Legal(s, [step] + rest) && Execute(s, [step] + rest) == Execute(Next(s, step), rest)
  {
    assert ([step] + rest)[1..] == rest;
  }

  function At(s: State, t: Thread, pc: Pc): State { s.(threads := s.threads[t := pc]) }

  /** The acquire counter of a runtime, one higher. */
  function Raised(acquiring: map<string, int>, runtime: string): map<string, int> {
    acquiring[runtime := (if runtime in acquiring then acquiring[runtime] else 0) + 1]
  }

  function Inside(s: State, runtime: string): State { s.(acquiring := Raised(s.acquiring, runtime)) }

  // ----- steps

  lemma Enters(s: State, t: Thread, key: PoolKey)
    ensures Enabled(s, Enter(t, key)) <==> PcOf(s, t) == Over && key.runtime !in s.gates
    ensures Enabled(s, Enter(t, key)) ==>
              Next(s, Enter(t, key)) == At(Inside(s, key.runtime), t, Acquiring(key, Entered))
  {}

  lemma PopsLast(s: State, t: Thread, key: PoolKey, bad: set<WorkerId>)
    requires PcOf(s, t) == Acquiring(key, Entered)
    requires forall w :: w in Bucket(s.idle, key) && w in s.workers && Broken(s.workers[w]) ==> w in bad
    ensures Enabled(s, Pop(t, bad))
    ensures var bucket, n := Bucket(s.idle, key), Next(s, Pop(t, bad));
            && (bucket == [] ==>
                  n == At(s.(idle := s.idle - {key}), t, Acquiring(key, Destroying(Job([], None), Boot))))
            && (bucket != [] && bucket[|bucket| - 1] !in bad ==>
                  var rest := bucket[..|bucket| - 1];
                  n == At(s.(idle := if rest == [] then s.idle - {key} else s.idle[key := rest]), t,
                          Acquiring(key, Destroying(Job([], None), Prepare(bucket[|bucket| - 1])))))
  {}

  lemma Prepares(s: State, t: Thread, key: PoolKey, w: WorkerId)
    requires PcOf(s, t) == Acquiring(key, Destroying(Job([], None), Prepare(w)))
    ensures Enabled(s, PrepareOk(t)) && Next(s, PrepareOk(t)) == At(s, t, Acquiring(key, Done(Some(w))))
    ensures w in s.workers ==>
              Enabled(s, PrepareFail(t)) &&
              Next(s, PrepareFail(t)) == At(s.(workers := s.workers[w := s.workers[w].(healthy := false)]), t,
                                            Acquiring(key, Destroying(Job([w], None), GiveUp)))
  {}

  lemma Reserves(s: State, t: Thread, key: PoolKey)
    requires PcOf(s, t) == Acquiring(key, Destroying(Job([], None), Boot))
    ensures Enabled(s, ReserveLive(t))
    ensures var (counts, verdict) := Reserve(s.counts, s.caps, key.tenant);
            Next(s, ReserveLive(t))
            == At(s.(counts := counts), t, Acquiring(key, if verdict == Granted then Booting(None) else Done(None)))
  {}

  lemma Creates(s: State, t: Thread, key: PoolKey, sandbox: WorkerId)
    requires PcOf(s, t) == Acquiring(key, Booting(None)) && sandbox !in s.seen
    ensures Enabled(s, Appear(t, sandbox))
    ensures var n := Next(s, Appear(t, sandbox));
            && n == At(s.(live := s.live[sandbox := key.runtime], seen := s.seen + {sandbox}), t,
                       Acquiring(key, Booting(Some(sandbox))))
            && Enabled(n, CreateOk(t)) && Next(n, CreateOk(t)) == At(n, t, Acquiring(key, Installing(sandbox)))
  {}

  lemma Installs(s: State, t: Thread, key: PoolKey, sandbox: WorkerId)
    requires PcOf(s, t) == Acquiring(key, Installing(sandbox))
    ensures Enabled(s, InstallOk(t)) && Enabled(s, InstallFail(t))
    ensures Next(s, InstallOk(t)) == At(s.(workers := s.workers[sandbox := Worker(key, true, false, 0, {}, 0)]), t,
                                        Acquiring(key, Done(Some(sandbox))))
    ensures Next(s, InstallFail(t)) == At(s, t, Acquiring(key, Unreserving))
  {}

  lemma Fails(s: State, t: Thread, key: PoolKey, created: Option<WorkerId>, undecided: bool)
    requires PcOf(s, t) == Acquiring(key, Booting(created))
    ensures Enabled(s, CreateFail(t, undecided)) <==> (undecided ==> created == None)
    ensures Enabled(s, CreateFail(t, undecided)) ==>
              Next(s, CreateFail(t, undecided))
              == At(s.(lost := if undecided then s.lost + multiset{key.runtime} else s.lost), t,
                    Acquiring(key, Unreserving))
  {}

  lemma Unreserves(s: State, t: Thread, key: PoolKey)
    requires PcOf(s, t) == Acquiring(key, Unreserving)
    ensures Enabled(s, Unreserve(t))
    ensures Next(s, Unreserve(t)) == At(s.(counts := Release(s.counts, key.tenant)), t, Acquiring(key, Done(None)))
  {}

  lemma Leaves(s: State, t: Thread, key: PoolKey, got: Option<WorkerId>)
    requires PcOf(s, t) == Acquiring(key, Done(got))
    ensures Enabled(s, Leave(t))
    ensures var r := key.runtime;
            var left := CountOf(s, r) - 1;
            Next(s, Leave(t)) == At(s.(acquiring := if left > 0 then s.acquiring[r := left] else s.acquiring - {r}), t,
                                    if got.Some? then Holding(key, got.value) else Over)
  {}

  lemma Marks(s: State, t: Thread, job: Job)
    requires Loops(PcOf(s, t)) && JobOf(PcOf(s, t)) == job && job.pending == None && job.queue != []
    requires job.queue[0] in s.workers
    ensures var w, pc := job.queue[0], PcOf(s, t);
            var pending := if s.workers[w].destroyed then None else Some(w);
            && Enabled(s, Mark(t))
            && Next(s, Mark(t)) == At(s.(workers := s.workers[w := s.workers[w].(destroyed := true)]), t,
                                      WithJob(pc, Job(job.queue[1..], pending)))
  {}

  lemma Settles(s: State, t: Thread, job: Job, w: WorkerId, raised: bool)
    requires PcOf(s, t) == Sweeping(job) && job.pending == Some(w) && w in s.workers
    ensures Enabled(s, Settle(t, raised))
    ensures Next(s, Settle(t, raised))
            == At(s.(released := s.released + {w}, counts := Release(s.counts, s.workers[w].key.tenant)), t,
                  Sweeping(Job(if raised then [] else job.queue, None)))
  {}

  lemma Finishes(s: State, t: Thread)
    ensures Enabled(s, SweepDone(t)) <==> PcOf(s, t) == Sweeping(Job([], None))
    ensures Enabled(s, SweepDone(t)) ==> Next(s, SweepDone(t)) == At(s, t, Over)
  {}

  /** After its destroy loop an acquire can do one thing: prepare its candidate, ask the quota,
      or give up. */
  lemma OneWayOn(s: State, t: Thread, key: PoolKey, next: Then)
    requires PcOf(s, t) == Acquiring(key, Destroying(Job([], None), next))
    ensures Enabled(s, PrepareOk(t)) <==> next.Prepare?
    ensures Enabled(s, ReserveLive(t)) <==> next == Boot
    ensures Enabled(s, StopTrying(t)) <==> next == GiveUp
    ensures !Enabled(s, Mark(t))
  {}

  /** What the backend does by itself: a sandbox vanishes; an outstanding create call takes
      effect under a fresh name, or never will. A call takes effect once. */
  lemma BackendSteps(s: State, sandbox: WorkerId, runtime: string)
    ensures Enabled(s, Vanish(sandbox)) && Next(s, Vanish(sandbox)) == s.(live := s.live - {sandbox})
    ensures Enabled(s, Late(sandbox, runtime)) <==> runtime in s.lost && sandbox !in s.seen
    ensures Enabled(s, Late(sandbox, runtime)) ==>
              Next(s, Late(sandbox, runtime))
              == s.(live := s.live[sandbox := runtime], seen := s.seen + {sandbox}, lost := s.lost - multiset{runtime})
    ensures Enabled(s, Forget(runtime)) <==> runtime in s.lost
    ensures Enabled(s, Forget(runtime)) ==> Next(s, Forget(runtime)) == s.(lost := s.lost - multiset{runtime})
  {}

  // ----- runs

  lemma Stays(s: State)
    ensures Legal(s, []) && Execute(s, []) == s
  {}

  /** Entering and leaving acquire leaves its counter as it was. */
  lemma InAndOut(acquiring: map<string, int>, runtime: string)
    requires runtime in acquiring ==> acquiring[runtime] > 0
    ensures var before := if runtime in acquiring then acquiring[runtime] else 0;
            var inside := acquiring[runtime := before + 1];
            acquiring == if before + 1 > 1 then inside[runtime := before] else inside - {runtime}
  {}

  /** Outside acquire, free to ask for a worker of this key. */
  ghost predicate Asks(s: State, t: Thread, key: PoolKey) {
    && PcOf(s, t) == Over && key.runtime !in s.gates
    && (key.runtime in s.acquiring ==> s.acquiring[key.runtime] > 0)
  }

  /** The lists without the last worker of this key's list, or without the list. */
  function Shorter(idle: Idle, key: PoolKey): Idle {
    var bucket := Bucket(idle, key);
    if |bucket| > 1 then idle[key := bucket[..|bucket| - 1]] else idle - {key}
  }

  /** In acquire with that list popped, about to do `next`. */
  function Popped(s: State, t: Thread, key: PoolKey, next: Then): State {
    At(Inside(s.(idle := Shorter(s.idle, key)), key.runtime), t, Acquiring(key, Destroying(Job([], None), next)))
  }

  /** What an acquire that has nothing to discard does first. */
  lemma GetsIn(s: State, t: Thread, key: PoolKey, bad: set<WorkerId>, next: Then, rest: seq<Step>)
    requires Asks(s, t, key)
    requires forall v :: v in Bucket(s.idle, key) && v in s.workers && Broken(s.workers[v]) ==> v in bad
    requires var bucket := Bucket(s.idle, key);
             if bucket == [] then next == Boot
             else bucket[|bucket| - 1] !in bad && next == Prepare(bucket[|bucket| - 1])
    requires Legal(Popped(s, t, key, next), rest)
    ensures var run := [Enter(t, key)] + ([Pop(t, bad)] + rest);
            Legal(s, run) && Execute(s, run) == Execute(Popped(s, t, key, next), rest)
  {
    hide Next, Enabled, Legal, Execute, Raised;
    Enters(s, t, key);
    var s1 := Next(s, Enter(t, key));
    PopsLast(s1, t, key, bad);
    assert s1.threads[t := Popped(s, t, key, next).threads[t]] == Popped(s, t, key, next).threads;
    Chain(s1, Pop(t, bad), rest);
    Chain(s, Enter(t, key), [Pop(t, bad)] + rest);
  }

  lemma Again(s: State, t: Thread, a: Pc, b: Pc)
    ensures At(At(s, t, a), t, b) == At(s, t, b)
  {}

  /** What an acquire does last. */
  lemma GetsOut(s: State, t: Thread, key: PoolKey, got: Option<WorkerId>)
    requires key.runtime in s.acquiring ==> s.acquiring[key.runtime] > 0
    ensures var done := At(Inside(s, key.runtime), t, Acquiring(key, Done(got)));
            Legal(done, [Leave(t)])
            && Execute(done, [Leave(t)]) == At(s, t, if got.Some? then Holding(key, got.value) else Over)
  {
    var done := At(Inside(s, key.runtime), t, Acquiring(key, Done(got)));
    Leaves(done, t, key, got);
    InAndOut(s.acquiring, key.runtime);
    OneStep(done, Leave(t));
    Again(s, t, Acquiring(key, Done(got)), if got.Some? then Holding(key, got.value) else Over);
  }

  /** A worker that is whole and last in its list is handed out, and only leaves the list. */
  lemma WarmAcquire(s: State, t: Thread, key: PoolKey, w: WorkerId, bad: set<WorkerId>)
    requires Asks(s, t, key) && Bucket(s.idle, key) != [] && w == Bucket(s.idle, key)[|Bucket(s.idle, key)| - 1]
    requires w !in bad
    requires forall v :: v in Bucket(s.idle, key) && v in s.workers && v !in bad ==>
               s.workers[v].healthy && !s.workers[v].destroyed
    ensures var run := [Enter(t, key)] + ([Pop(t, bad)] + ([PrepareOk(t)] + [Leave(t)]));
            Legal(s, run) && Execute(s, run) == At(s.(idle := Shorter(s.idle, key)), t, Holding(key, w))
  {
    hide Next, Enabled, Legal, Execute, Raised, Shorter;
    var after := s.(idle := Shorter(s.idle, key));
    var popped := Popped(s, t, key, Prepare(w));
    Prepares(popped, t, key, w);
    Again(Inside(after, key.runtime), t, Acquiring(key, Destroying(Job([], None), Prepare(w))),
          Acquiring(key, Done(Some(w))));
    GetsOut(after, t, key, Some(w));
    Chain(popped, PrepareOk(t), [Leave(t)]);
    GetsIn(s, t, key, bad, Prepare(w), [PrepareOk(t)] + [Leave(t)]);
  }

  /** Both caps leave room for one more. */
  predicate RoomFor(s: State, tenant: string) {
    s.counts.live < s.caps.live && TenantCount(s.counts, tenant) < s.caps.perTenant
  }

  /** In acquire with no worker to hand out, the quota asked. */
  function AskedQuota(s: State, t: Thread, key: PoolKey): State {
    var (counts, verdict) := Reserve(s.counts, s.caps, key.tenant);
    At(Inside(s.(idle := s.idle - {key}, counts := counts), key.runtime), t,
       Acquiring(key, if verdict == Granted then Booting(None) else Done(None)))
  }

  lemma GetsToQuota(s: State, t: Thread, key: PoolKey, rest: seq<Step>)
    requires Asks(s, t, key) && Bucket(s.idle, key) == [] && Legal(AskedQuota(s, t, key), rest)
    ensures var run := [Enter(t, key)] + ([Pop(t, {})] + ([ReserveLive(t)] + rest));
            Legal(s, run) && Execute(s, run) == Execute(AskedQuota(s, t, key), rest)
  {
    hide Next, Enabled, Legal, Execute, Raised, Reserve;
    var popped := Popped(s, t, key, Boot);
    Reserves(popped, t, key);
    assert s.threads[t := AskedQuota(s, t, key).threads[t]]
      == popped.threads[t := AskedQuota(s, t, key).threads[t]];
    Chain(popped, ReserveLive(t), rest);
    GetsIn(s, t, key, {}, Boot, [ReserveLive(t)] + rest);
  }

  /** The accounts with one more for the tenant. */
  function OneMore(c: Counts, tenant: string): Counts {
    Counts(c.live + 1, c.tenants[tenant := TenantCount(c, tenant) + 1])
  }

  lemma QuotaAnswers(s: State, t: Thread, key: PoolKey)
    requires 0 < s.caps.perTenant
    ensures AskedQuota(s, t, key) ==
            if RoomFor(s, key.tenant)
            then At(Inside(s.(idle := s.idle - {key}, counts := OneMore(s.counts, key.tenant)), key.runtime), t,
                    Acquiring(key, Booting(None)))
            else At(Inside(s.(idle := s.idle - {key}), key.runtime), t, Acquiring(key, Done(None)))
  {}

  /** With no worker idle under the key and room for one, a new sandbox becomes the caller's
      worker, on the tenant's account. */
  lemma ColdAcquire(s: State, t: Thread, key: PoolKey, sandbox: WorkerId)
    requires Asks(s, t, key) && Bucket(s.idle, key) == [] && RoomFor(s, key.tenant) && sandbox !in s.seen
    requires 0 < s.caps.perTenant
    ensures var create := [Appear(t, sandbox)] + ([CreateOk(t)] + ([InstallOk(t)] + [Leave(t)]));
            var run := [Enter(t, key)] + ([Pop(t, {})] + ([ReserveLive(t)] + create));
            Legal(s, run) &&
            Execute(s, run) ==
            At(s.(idle := s.idle - {key}, live := s.live[sandbox := key.runtime], seen := s.seen + {sandbox},
                  workers := s.workers[sandbox := Worker(key, true, false, 0, {}, 0)],
                  counts := OneMore(s.counts, key.tenant)),
               t, Holding(key, sandbox))
  {
    QuotaAnswers(s, t, key);
    hide Next, Enabled, Legal, Execute, Raised, AskedQuota, OneMore, RoomFor;
    BootsUp(s.(idle := s.idle - {key}, counts := OneMore(s.counts, key.tenant)), t, key, sandbox);
    GetsToQuota(s, t, key, [Appear(t, sandbox)] + ([CreateOk(t)] + ([InstallOk(t)] + [Leave(t)])));
  }

  lemma BootsUp(s: State, t: Thread, key: PoolKey, sandbox: WorkerId)
    requires sandbox !in s.seen && (key.runtime in s.acquiring ==> s.acquiring[key.runtime] > 0)
    ensures var create := [Appear(t, sandbox)] + ([CreateOk(t)] + ([InstallOk(t)] + [Leave(t)]));
            var booting := At(Inside(s, key.runtime), t, Acquiring(key, Booting(None)));
            Legal(booting, create) &&
            Execute(booting, create) == At(s.(live := s.live[sandbox := key.runtime], seen := s.seen + {sandbox},
                                              workers := s.workers[sandbox := Worker(key, true, false, 0, {}, 0)]),
                                           t, Holding(key, sandbox))
  {
    hide Next, Enabled, Legal, Execute, Raised;
    var booting := At(Inside(s, key.runtime), t, Acquiring(key, Booting(None)));
    Creates(booting, t, key, sandbox);
    var s1 := Next(booting, Appear(t, sandbox));
    var s2 := Next(s1, CreateOk(t));
    Installs(s2, t, key, sandbox);
    var s3 := Next(s2, InstallOk(t));
    var after := s.(live := s.live[sandbox := key.runtime], seen := s.seen + {sandbox},
                    workers := s.workers[sandbox := Worker(key, true, false, 0, {}, 0)]);
    assert s3 == At(Inside(after, key.runtime), t, Acquiring(key, Done(Some(sandbox)))) by {
      assert s3.threads == s.threads[t := Acquiring(key, Done(Some(sandbox)))];
    }
    GetsOut(after, t, key, Some(sandbox));
    Chain(s2, InstallOk(t), [Leave(t)]);
    Chain(s1, CreateOk(t), [InstallOk(t)] + [Leave(t)]);
    Chain(booting, Appear(t, sandbox), [CreateOk(t)] + ([InstallOk(t)] + [Leave(t)]));
  }

  /** With a cap reached the caller gets nothing, and nothing has changed. */
  lemma RefusedAcquire(s: State, t: Thread, key: PoolKey)
    requires Asks(s, t, key) && Bucket(s.idle, key) == [] && !RoomFor(s, key.tenant) && 0 < s.caps.perTenant
    ensures var run := [Enter(t, key)] + ([Pop(t, {})] + ([ReserveLive(t)] + [Leave(t)]));
            Legal(s, run) && Execute(s, run) == At(s.(idle := s.idle - {key}), t, Over)
  {
    QuotaAnswers(s, t, key);
    hide Next, Enabled, Legal, Execute, Raised, AskedQuota, OneMore, RoomFor;
    GetsOut(s.(idle := s.idle - {key}), t, key, None);
    GetsToQuota(s, t, key, [Leave(t)]);
  }

  /** A failed create gives the reservation back; what may still come of the call is
      remembered if it was given up undecided. */
  lemma FailedCreate(s: State, t: Thread, key: PoolKey, undecided: bool)
    requires Inv(s) && Asks(s, t, key) && Bucket(s.idle, key) == [] && RoomFor(s, key.tenant)
    ensures var undo := [CreateFail(t, undecided)] + ([Unreserve(t)] + [Leave(t)]);
            var run := [Enter(t, key)] + ([Pop(t, {})] + ([ReserveLive(t)] + undo));
            Legal(s, run) &&
            Execute(s, run) == At(s.(idle := s.idle - {key},
                                     lost := if undecided then s.lost + multiset{key.runtime} else s.lost), t, Over)
  {
    CountsBack(s, key.tenant);
    QuotaAnswers(s, t, key);
    hide Next, Enabled, Legal, Execute, Raised, AskedQuota, OneMore, Release, RoomFor, Inv;
    GivesUp(s.(idle := s.idle - {key}, counts := OneMore(s.counts, key.tenant)), t, key, undecided);
    GetsToQuota(s, t, key, [CreateFail(t, undecided)] + ([Unreserve(t)] + [Leave(t)]));
  }

  lemma CountsBack(s: State, tenant: string)
    requires Inv(s) && RoomFor(s, tenant)
    ensures Release(OneMore(s.counts, tenant), tenant) == s.counts && 0 < s.caps.perTenant
  {
    hide Counted, Conserved, Accounted, Filed, Exclusive, Queued, Sane;
    GrantedExactly(s.counts, s.caps, tenant);
    ReleaseUndoesReserve(s.counts, s.caps, tenant);
  }

  lemma GivesUp(s: State, t: Thread, key: PoolKey, undecided: bool)
    requires key.runtime in s.acquiring ==> s.acquiring[key.runtime] > 0
    ensures var undo := [CreateFail(t, undecided)] + ([Unreserve(t)] + [Leave(t)]);
            var booting := At(Inside(s, key.runtime), t, Acquiring(key, Booting(None)));
            Legal(booting, undo) &&
            Execute(booting, undo) == At(s.(counts := Release(s.counts, key.tenant),
                                            lost := if undecided then s.lost + multiset{key.runtime} else s.lost),
                                         t, Over)
  {
    hide Next, Enabled, Legal, Execute, Raised, Release;
    var booting := At(Inside(s, key.runtime), t, Acquiring(key, Booting(None)));
    Fails(booting, t, key, None, undecided);
    var s1 := Next(booting, CreateFail(t, undecided));
    Unreserves(s1, t, key);
    var s2 := Next(s1, Unreserve(t));
    var after := s.(counts := Release(s.counts, key.tenant),
                    lost := if undecided then s.lost + multiset{key.runtime} else s.lost);
    assert s2 == At(Inside(after, key.runtime), t, Acquiring(key, Done(None))) by {
      assert s2.threads == s.threads[t := Acquiring(key, Done(None))];
    }
    GetsOut(after, t, key, None);
    Chain(s1, Unreserve(t), [Leave(t)]);
    Chain(booting, CreateFail(t, undecided), [Unreserve(t)] + [Leave(t)]);
  }

  // ----- being rid of a worker

  lemma Turns(s: State, t: Thread, key: PoolKey, w: WorkerId, reuse: bool)
    requires PcOf(s, t) == Holding(key, w) && w in s.workers
    ensures Enabled(s, BeginReturn(t, reuse)) && Enabled(s, Discard(t))
    ensures Next(s, BeginReturn(t, reuse)) == At(s, t, if reuse && !Broken(s.workers[w]) then Returning(key, w)
                                                       else Sweeping(Job([w], None)))
    ensures Next(s, Discard(t)) == At(s.(workers := s.workers[w := s.workers[w].(healthy := false)]), t,
                                      Sweeping(Job([w], None)))
  {}

  lemma Appends(s: State, t: Thread, key: PoolKey, w: WorkerId)
    requires PcOf(s, t) == Returning(key, w)
    ensures Enabled(s, Append(t))
    ensures Next(s, Append(t)) == At(s.(idle := s.idle[key := Bucket(s.idle, key) + [w]]), t, Over)
  {}

  /** A whole worker given back for reuse is last in its own list, and next to be handed out. */
  lemma GivesBack(s: State, t: Thread, key: PoolKey, w: WorkerId)
    requires PcOf(s, t) == Holding(key, w) && w in s.workers && s.workers[w].healthy && !s.workers[w].destroyed
    ensures var run := [BeginReturn(t, true)] + [Append(t)];
            Legal(s, run) && Execute(s, run) == At(s.(idle := s.idle[key := Bucket(s.idle, key) + [w]]), t, Over)
  {
    hide Next, Enabled, Legal, Execute;
    Turns(s, t, key, w, true);
    var s1 := Next(s, BeginReturn(t, true));
    Appends(s1, t, key, w);
    OneStep(s1, Append(t));
    Chain(s, BeginReturn(t, true), [Append(t)]);
    Again(s, t, Returning(key, w), Over);
    Again(s.(idle := s.idle[key := Bucket(s.idle, key) + [w]]), t, Returning(key, w), Over);
  }

  /** The worker destroyed, and its reservation released, once. */
  function Destroyed(s: State, w: WorkerId): State
    requires w in s.workers
  {
    var after := s.(workers := s.workers[w := s.workers[w].(destroyed := true)]);
    if s.workers[w].destroyed then after
    else after.(released := s.released + {w}, counts := Release(s.counts, s.workers[w].key.tenant))
  }

  /** What a destroy loop does with its first worker. */
  function FirstSteps(s: State, t: Thread, w: WorkerId, raised: bool): seq<Step>
    requires w in s.workers
  {
    [Mark(t)] + if s.workers[w].destroyed then [] else [Settle(t, raised)]
  }

  /** A loop destroys its first worker; if the backend raises on one that was alive, the rest
      of the loop is forgotten. */
  lemma LoopStep(s: State, t: Thread, w: WorkerId, rest: seq<WorkerId>, raised: bool, more: seq<Step>)
    requires PcOf(s, t) == Sweeping(Job([w] + rest, None)) && w in s.workers
    requires var left := if raised && !s.workers[w].destroyed then [] else rest;
             Legal(At(Destroyed(s, w), t, Sweeping(Job(left, None))), more)
    ensures var left := if raised && !s.workers[w].destroyed then [] else rest;
            var run := FirstSteps(s, t, w, raised) + more;
            Legal(s, run) && Execute(s, run) == Execute(At(Destroyed(s, w), t, Sweeping(Job(left, None))), more)
  {
    hide Next, Enabled, Legal, Execute, Release;
    var job := Job([w] + rest, None);
    Marks(s, t, job);
    assert job.queue[1..] == rest;
    var s1 := Next(s, Mark(t));
    if s.workers[w].destroyed {
      assert [Mark(t)] + [] + more == [Mark(t)] + more;
      Chain(s, Mark(t), more);
    } else {
      Settles(s1, t, Job(rest, Some(w)), w, raised);
      Again(Destroyed(s, w), t, Sweeping(Job(rest, Some(w))), Sweeping(Job(if raised then [] else rest, None)));
      Chain(s1, Settle(t, raised), more);
      Chain(s, Mark(t), [Settle(t, raised)] + more);
      assert [Mark(t)] + [Settle(t, raised)] + more == [Mark(t)] + ([Settle(t, raised)] + more);
    }
  }

  /** A loop over one worker ends with that one destroyed, whether or not the backend raises. */
  lemma LoopOfOne(s: State, t: Thread, w: WorkerId, raised: bool)
    requires w in s.workers
    ensures var looping := At(s, t, Sweeping(Job([w], None)));
            var run := FirstSteps(looping, t, w, raised) + [SweepDone(t)];
            Legal(looping, run) && Execute(looping, run) == At(Destroyed(s, w), t, Over)
  {
    hide Next, Enabled, Legal, Execute;
    var looping := At(s, t, Sweeping(Job([w], None)));
    var done := At(Destroyed(looping, w), t, Sweeping(Job([], None)));
    Finishes(done, t);
    OneStep(done, SweepDone(t));
    assert [w] + [] == [w];
    LoopStep(looping, t, w, [], raised, [SweepDone(t)]);
    Again(Destroyed(s, w), t, Sweeping(Job([], None)), Over);
    assert done == At(Destroyed(s, w), t, Sweeping(Job([], None))) by {
      Again(Destroyed(s, w), t, Sweeping(Job([w], None)), Sweeping(Job([], None)));
    }
  }

  /** A discarded worker, and one given back that is broken or not for reuse, is destroyed. */
  lemma RidOf(s: State, t: Thread, key: PoolKey, w: WorkerId, reuse: bool, raised: bool)
    requires PcOf(s, t) == Holding(key, w) && w in s.workers
    ensures var unhealthy := s.(workers := s.workers[w := s.workers[w].(healthy := false)]);
            var run := [Discard(t)] + (FirstSteps(unhealthy, t, w, raised) + [SweepDone(t)]);
            Legal(s, run) && Execute(s, run) == At(Destroyed(unhealthy, w), t, Over)
    ensures !(reuse && s.workers[w].healthy && !s.workers[w].destroyed) ==>
              var run := [BeginReturn(t, reuse)] + (FirstSteps(s, t, w, raised) + [SweepDone(t)]);
              Legal(s, run) && Execute(s, run) == At(Destroyed(s, w), t, Over)
  {
    hide Next, Enabled, Legal, Execute, Destroyed;
    Turns(s, t, key, w, reuse);
    var unhealthy := s.(workers := s.workers[w := s.workers[w].(healthy := false)]);
    LoopOfOne(unhealthy, t, w, raised);
    Chain(s, Discard(t), FirstSteps(unhealthy, t, w, raised) + [SweepDone(t)]);
    if !reuse || Broken(s.workers[w]) {
      LoopOfOne(s, t, w, raised);
      Chain(s, BeginReturn(t, reuse), FirstSteps(s, t, w, raised) + [SweepDone(t)]);
    }
  }

  lemma AcquireSettles(s: State, t: Thread, key: PoolKey, job: Job, w: WorkerId, next: Then, raised: bool)
    requires PcOf(s, t) == Acquiring(key, Destroying(job, next)) && job.pending == Some(w) && w in s.workers
    ensures Enabled(s, Settle(t, raised))
    ensures Next(s, Settle(t, raised))
            == At(s.(released := s.released + {w}, counts := Release(s.counts, s.workers[w].key.tenant)), t,
                  Acquiring(key, if raised then Destroying(Job([], None), GiveUp)
                                 else Destroying(Job(job.queue, None), next)))
  {}

  /** The destroy loop of an acquire: if the backend raises on a live worker, the rest of the
      loop is forgotten and the candidate with it, and the acquire is about to give up. */
  lemma AcquireLoopStep(s: State, t: Thread, key: PoolKey, w: WorkerId, rest: seq<WorkerId>, next: Then, raised: bool,
                        more: seq<Step>)
    requires PcOf(s, t) == Acquiring(key, Destroying(Job([w] + rest, None), next)) && w in s.workers
    requires Legal(AfterLoopStep(s, t, key, w, rest, next, raised), more)
    ensures var run := FirstSteps(s, t, w, raised) + more;
            Legal(s, run) && Execute(s, run) == Execute(AfterLoopStep(s, t, key, w, rest, next, raised), more)
  {
    hide Next, Enabled, Legal, Execute, Release;
    var job := Job([w] + rest, None);
    Marks(s, t, job);
    assert job.queue[1..] == rest;
    var s1 := Next(s, Mark(t));
    if s.workers[w].destroyed {
      assert [Mark(t)] + [] + more == [Mark(t)] + more;
      Chain(s, Mark(t), more);
    } else {
      AcquireSettles(s1, t, key, Job(rest, Some(w)), w, next, raised);
      Again(Destroyed(s, w), t, Acquiring(key, Destroying(Job(rest, Some(w)), next)),
            PcOf(AfterLoopStep(s, t, key, w, rest, next, raised), t));
      Chain(s1, Settle(t, raised), more);
      Chain(s, Mark(t), [Settle(t, raised)] + more);
      assert [Mark(t)] + [Settle(t, raised)] + more == [Mark(t)] + ([Settle(t, raised)] + more);
    }
  }

  function AfterLoopStep(s: State, t: Thread, key: PoolKey, w: WorkerId, rest: seq<WorkerId>, next: Then, raised: bool)
    : State
    requires w in s.workers
  {
    At(Destroyed(s, w), t,
       Acquiring(key, if raised && !s.workers[w].destroyed then Destroying(Job([], None), GiveUp)
                      else Destroying(Job(rest, None), next)))
  }

  /** An acquire that gives up leaves with nothing. */
  lemma GivesUpTrying(s: State, t: Thread, key: PoolKey)
    requires key.runtime in s.acquiring ==> s.acquiring[key.runtime] > 0
    ensures var trying := At(Inside(s, key.runtime), t, Acquiring(key, Destroying(Job([], None), GiveUp)));
            var run := [StopTrying(t)] + [Leave(t)];
            Legal(trying, run) && Execute(trying, run) == At(s, t, Over)
  {
    var trying := At(Inside(s, key.runtime), t, Acquiring(key, Destroying(Job([], None), GiveUp)));
    assert Enabled(trying, StopTrying(t));
    assert Next(trying, StopTrying(t)) == At(trying, t, Acquiring(key, Done(None)));
    hide Next, Enabled, Legal, Execute, Raised;
    Again(Inside(s, key.runtime), t, Acquiring(key, Destroying(Job([], None), GiveUp)), Acquiring(key, Done(None)));
    GetsOut(s, t, key, None);
    Chain(trying, StopTrying(t), [Leave(t)]);
  }

  lemma CancelsOrSweeps(s: State, t: Thread, w: WorkerId, queue: seq<WorkerId>)
    requires PcOf(s, t) == Over && w in s.workers && forall v :: v in queue ==> IsIdle(s.idle, v)
    ensures Enabled(s, Cancel(t, w)) && Enabled(s, Plane.Sweep(t, queue))
    ensures Next(s, Cancel(t, w)) == At(s.(workers := s.workers[w := s.workers[w].(healthy := false)]), t,
                                        Sweeping(Job([w], None)))
    ensures Next(s, Plane.Sweep(t, queue)) == At(s.(idle := Pool.Sweep(s.idle, Elements(queue))), t,
                                                 Sweeping(Job(queue, None)))
  {}

  /** A cancel destroys the worker under its call, which keeps it in hand. */
  lemma CancelDestroys(s: State, t: Thread, w: WorkerId, raised: bool)
    requires PcOf(s, t) == Over && w in s.workers
    ensures var unhealthy := s.(workers := s.workers[w := s.workers[w].(healthy := false)]);
            var run := [Cancel(t, w)] + (FirstSteps(unhealthy, t, w, raised) + [SweepDone(t)]);
            Legal(s, run) && Execute(s, run) == At(Destroyed(unhealthy, w), t, Over)
  {
    var unhealthy := s.(workers := s.workers[w := s.workers[w].(healthy := false)]);
    CancelsOrSweeps(s, t, w, []);
    hide Next, Enabled, Legal, Execute, Destroyed;
    LoopOfOne(unhealthy, t, w, raised);
    Chain(s, Cancel(t, w), FirstSteps(unhealthy, t, w, raised) + [SweepDone(t)]);
  }

  /** A sweep takes its workers out of the lists; when the backend raises on the first, the
      second is in no list, in nobody's hands and alive. */
  lemma SweepStopsShort(s: State, t: Thread, w: WorkerId, lost: WorkerId)
    requires PcOf(s, t) == Over && IsIdle(s.idle, w) && IsIdle(s.idle, lost) && w != lost
    requires w in s.workers && !s.workers[w].destroyed && lost in s.workers && !s.workers[lost].destroyed
    ensures var run := [Plane.Sweep(t, [w] + [lost])] + ([Mark(t)] + [Settle(t, true)] + [SweepDone(t)]);
            Legal(s, run) &&
            var end := Execute(s, run);
            && end == At(Destroyed(s.(idle := Pool.Sweep(s.idle, Elements([w] + [lost]))), w), t, Over)
            && lost in end.workers && !end.workers[lost].destroyed && !IsIdle(end.idle, lost)
  {
    var swept := s.(idle := Pool.Sweep(s.idle, Elements([w] + [lost])));
    var looping, left := Job([w] + [lost], None), Job([], None);
    CancelsOrSweeps(s, t, w, [w] + [lost]);
    SweepLeaves(s.idle, Elements([w] + [lost]));
    hide Next, Enabled, Legal, Execute, IsIdle, Pool.Sweep, Release;
    var s1 := At(swept, t, Sweeping(looping));
    var done := At(Destroyed(s1, w), t, Sweeping(left));
    Finishes(done, t);
    OneStep(done, SweepDone(t));
    LoopStep(s1, t, w, [lost], true, [SweepDone(t)]);
    Chain(s, Plane.Sweep(t, [w] + [lost]), [Mark(t)] + [Settle(t, true)] + [SweepDone(t)]);
    Again(Destroyed(swept, w), t, Sweeping(looping), Over);
    Again(At(Destroyed(swept, w), t, Sweeping(looping)), t, Sweeping(left), Over);
  }
}
