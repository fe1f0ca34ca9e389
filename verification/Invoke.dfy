/** RunnerService.invoke: claim, acquire, run, finish, give the worker back. */
module Invoke {
  import opened Wrappers
  import opened RunTables
  import opened RunnerDb
  import Attributes
  import Pool
  import Replay

  const MAX_INLINE_BYTES := 8 * 1024 * 1024

  datatype Release = Release(id: string, runtime: string, profile: string,
                             inputs: seq<string>, outputs: seq<string>)
  datatype Policy = Policy(maxTimeoutMs: int, reuse: bool)
  datatype Request = Request(tenant: string, lease: string, invocation: string, key: string, content: seq<bv8>,
                             attributes: Attributes.Attrs, parameters: Attributes.Attrs, timeoutMs: int)

  datatype ActiveRun = ActiveRun(tenant: string, lease: string, worker: Pool.WorkerId)
  datatype CancelOutcome = NotActive | Forbidden | Answered(stopped: bool) | CancelFailed

  /** What the fingerprint is taken of. */
  datatype Identity = Identity(release: string, content: seq<bv8>, attributes: Attributes.Attrs,
                               parameters: Attributes.Attrs, timeoutMs: int)

  /** What is asked for where the profile allows it, never more, and at least a millisecond
      where that is allowed. */
  function Timeout(asked: int, policy: Policy): (ms: int)
    ensures ms <= policy.maxTimeoutMs
    ensures 1 <= asked <= policy.maxTimeoutMs ==> ms == asked
    ensures asked < 1 <= policy.maxTimeoutMs ==> ms == 1
    ensures 1 <= policy.maxTimeoutMs < asked || policy.maxTimeoutMs < 1 ==> ms == policy.maxTimeoutMs
  {
    var wanted := if asked < 1 then 1 else asked;
    if wanted < policy.maxTimeoutMs then wanted else policy.maxTimeoutMs
  }

  function IdentityOf(r: Request, release: Release, policy: Policy): Identity {
    Identity(release.id, r.content, Attributes.Filter(r.attributes, release.inputs), r.parameters,
             Timeout(r.timeoutMs, policy))
  }

  /** The release cannot tell the two requests apart: same content and parameters, same
      declared attributes, same time allowed. */
  ghost predicate SameRequest(a: Request, b: Request, release: Release, policy: Policy) {
    && a.content == b.content && a.parameters == b.parameters
    && (forall k :: k in release.inputs ==>
          (k in a.attributes <==> k in b.attributes) && (k in b.attributes ==> a.attributes[k] == b.attributes[k]))
    && Timeout(a.timeoutMs, policy) == Timeout(b.timeoutMs, policy)
  }

  /** The fingerprint is taken of exactly that, and of the release. Who asks, under which
      key, lease or invocation id, does not matter. */
  lemma IdentityIsTheRequest(a: Request, b: Request, release: Release, policy: Policy, other: Release)
    ensures IdentityOf(a, release, policy) == IdentityOf(b, release, policy) <==> SameRequest(a, b, release, policy)
    ensures IdentityOf(a, release, policy) == IdentityOf(b, other, policy) ==> release.id == other.id
  {
    Attributes.SameToRelease(a.attributes, b.attributes, release.inputs);
  }

  /** Requests that differ only in attributes the release does not declare are the same
      request to the idempotency table. */
  lemma UndeclaredAttributesDoNotMatter(r: Request, attributes: Attributes.Attrs, release: Release, policy: Policy)
    ensures IdentityOf(r, release, policy) == IdentityOf(r.(attributes := attributes), release, policy) <==>
            forall k :: k in release.inputs ==>
              (k in r.attributes <==> k in attributes) && (k in attributes ==> r.attributes[k] == attributes[k])
  {
    IdentityIsTheRequest(r, r.(attributes := attributes), release, policy, release);
  }

  const REUSABLE_ERRORS: set<string> := {
    "TIMEOUT", "CANCELLED", "CPU_LIMIT", "USER_EXCEPTION", "USER_IMPORT_ERROR",
    "ENTRYPOINT_NOT_FOUND", "INVALID_USER_RESULT", "USER_PROCESS_EXITED",
    "USER_PROCESS_SIGNALED", "OUTPUT_LIMIT", "LOG_LIMIT", "CHILD_PROTOCOL_ERROR",
    "INVALID_CHILD_RESPONSE", "OPERATOR_REPORTED_FAILURE" }

  predicate MayReuse(result: RunResult) {
    result.status == "SUCCEEDED" || result.errorCode in REUSABLE_ERRORS
  }

  /** Everything outside this call: backend outcomes, and what other requests, the
      reaper and cancels do while it runs. */
  datatype World = World(
    faults: Pool.Faults,
    before: seq<Replay.Step>,          // other transactions between claim and backend run
    during: seq<Replay.Step>,          // and between backend run and finish
    registered: Option<ActiveRun>,     // another call made the invocation id active
    cancelled: bool,                   // a cancel invalidated the worker while it ran
    ran: Option<RunResult>,            // None: the backend raised
    cleanupRaises: bool)

  datatype Reply =
    | Returned(result: RunResult)      // this call executed
    | Cached(result: RunResult)
    | Refused(code: string)            // nothing was claimed
    | Failed(code: string)             // claimed, then given up

  /** Any transaction but a finish of this run, which only its own call can attempt. */
  predicate Foreign(step: Replay.Step, run: RunId) { step.Finish? ==> step.run != run }

  predicate AllForeign(steps: seq<Replay.Step>, run: RunId) {
    forall i :: 0 <= i < |steps| ==> Foreign(steps[i], run)
  }

  /** Still this call's claim, or displaced by a restart, and then perhaps purged. */
  predicate Mine(s: Replay.System, run: RunId, key: RunKey, fingerprint: string) {
    && run in s.issued
    && (run in s.tables.runs ==>
          && s.tables.runs[run].key == key && s.tables.runs[run].fingerprint == fingerprint
          && s.tables.runs[run].state in {RUNNING, ABANDONED})
  }

  lemma ForeignStepKeepsMine(s: Replay.System, step: Replay.Step, run: RunId, key: RunKey, fingerprint: string)
    requires Replay.Inv(s) && Replay.Enabled(s, step) && Foreign(step, run) && Mine(s, run, key, fingerprint)
    ensures Mine(Replay.Next(s, step), run, key, fingerprint)
  {
    hide Replay.RunsLogged, Replay.CacheBacked, Replay.CacheKept;
  }

  /** The run ended ABANDONED, unless purged since, and its key can be claimed anew. */
  predicate GivenUp(t: Tables, run: RunId, key: RunKey) {
    (run in t.runs ==> t.runs[run].state == ABANDONED) && !HoldsClaim(t, run, key)
  }

  /** The run ended DONE with this result, which the key's claim holds. */
  predicate Settled(s: Replay.System, run: RunId, key: RunKey, fingerprint: string, result: RunResult) {
    var t := s.tables;
    && run in t.runs && t.runs[run].state == DONE && t.runs[run].key == key
    && key in t.keys && t.keys[key].run == run && !t.keys[key].running
    && t.keys[key].fingerprint == fingerprint && t.keys[key].result == Some(result)
    && t.keys[key].replayable == !result.retryable
    && s.log != [] && s.log[|s.log| - 1].Completed?
    && s.log[|s.log| - 1].run == run && s.log[|s.log| - 1].result == result
  }

  /** A result is delivered if the backend gave an acceptable one and the run was not
      displaced meanwhile. */
  ghost predicate Delivers(t: Tables, run: RunId, ran: Option<RunResult>, release: Release) {
    ran.Some? && Acceptable(Visible(ran.value, release)) && IsRunning(t, run)
  }

  lemma FinishesIfRunning(s: Replay.System, run: RunId, key: RunKey, fp: string, result: RunResult, retention: int)
    requires Replay.Inv(s) && Mine(s, run, key, fp)
    ensures FinishRun(s.tables, run, key, result, retention, s.now).1
            == if IsRunning(s.tables, run) then Finished else RunStateLost
  {}

  lemma FinishSettles(s: Replay.System, run: RunId, key: RunKey, fp: string, result: RunResult, retention: int)
    requires Replay.Inv(s) && Mine(s, run, key, fp)
    ensures var after := Replay.Next(s, Replay.Finish(run, key, result, retention));
            if FinishRun(s.tables, run, key, result, retention, s.now).1 == Finished
            then Settled(after, run, key, fp, result) else Mine(after, run, key, fp)
  {}

  /** Whatever others do, the run stays RUNNING under this call's claim, or is ABANDONED
      and perhaps purged. */
  lemma {:induction false} Displaceable(s: Replay.System, steps: seq<Replay.Step>, run: RunId, key: RunKey, fp: string)
    requires Replay.Inv(s) && Replay.Sound(s.log) && Replay.Legal(s, steps)
    requires AllForeign(steps, run) && Mine(s, run, key, fp)
    ensures Mine(Replay.Execute(s, steps), run, key, fp)
    decreases |steps|
  {
    if steps != [] {
      Replay.StepKeeps(s, steps[0]);
      ForeignStepKeepsMine(s, steps[0], run, key, fp);
      Displaceable(Replay.Next(s, steps[0]), steps[1..], run, key, fp);
    }
  }

  /** A result without the attributes the release does not declare. */
  function Visible(result: RunResult, release: Release): RunResult {
    result.(attributes := Attributes.Filter(result.attributes, release.outputs))
  }

  ghost predicate Acceptable(result: RunResult) {
    Attributes.WithinLimits(result.attributes) && |result.content| <= MAX_INLINE_BYTES
  }

  function Refusal(verdict: Attributes.Verdict): string {
    match verdict
    case Accepted => ""
    case TooManyAttributes => "TOO_MANY_ATTRIBUTES"
    case AttributesTooLarge => "ATTRIBUTES_TOO_LARGE"
  }

  class RunnerService {
    const db: RunnerDB
    const pool: Pool.WorkerPool
    const policies: map<string, Policy>
    const fingerprint: Identity -> string
    const retention: int
    var active: map<string, ActiveRun>
    var clock: int
    ghost var history: Replay.System     // all transactions so far

    ghost predicate Ok()
      reads this, db, pool, pool.quota
    {
      pool.Ok() && history.tables == db.Contents() && history.now == clock
      && Replay.Inv(history) && Replay.Sound(history.log)
    }

    constructor (db: RunnerDB, pool: Pool.WorkerPool, policies: map<string, Policy>,
                 fingerprint: Identity -> string, retention: int)
      requires pool.Ok() && db.Contents() == Tables(map[], map[])
      ensures Ok() && this.db == db && this.pool == pool && active == map[] && history == Replay.INITIAL
    {
      this.db, this.pool, this.policies := db, pool, policies;
      this.fingerprint, this.retention := fingerprint, retention;
      active := map[];
      clock := 0;
      history := Replay.INITIAL;
    }

    /** Another caller's transaction, or time passing. */
    method Other(step: Replay.Step)
      requires Ok() && Replay.Enabled(history, step)
      modifies this`history, this`clock, db
      ensures Ok() && history == Replay.Next(old(history), step)
    {
      hide Replay.Inv, Replay.Sound, Pool.WorkerPool.Ok;
      hide BeginRun, FinishRun, AbandonRun, ResetRunning, PurgeExpired, PurgeOldRuns;
      ghost var s := history;
      Replay.StepKeeps(s, step);
      match step {
        case Begin(key, fp, run) => var _ := db.Begin(key, fp, run, clock);
        case Finish(run, key, result, keep) => var _ := db.Finish(run, key, result, keep, clock);
        case Abandon(run, key) => db.Abandon(run, key, clock);
        case Tick(elapsed) => clock := clock + elapsed;
        case _ => Maintain(step);
      }
      history := Replay.Next(s, step);
    }

    /** A restart, or the reaper. */
    method Maintain(step: Replay.Step)
      requires step.Restart? || step.PurgeKeys? || step.PurgeRuns?
      modifies db
      ensures db.Contents() == match step
                               case Restart => ResetRunning(old(db.Contents()), clock)
                               case PurgeKeys => PurgeExpired(old(db.Contents()), clock)
                               case PurgeRuns(olderThan) => PurgeOldRuns(old(db.Contents()), olderThan, clock)
    {
      hide ResetRunning, PurgeExpired, PurgeOldRuns;
      match step {
        case Restart => var _ := db.Reset(clock);
        case PurgeKeys => var _ := db.PurgeExpiredIdempotency(clock);
        case PurgeRuns(olderThan) => var _ := db.PurgeOld(olderThan, clock);
      }
    }

    /** Other callers' transactions. */
    method Others(steps: seq<Replay.Step>)
      requires Ok() && Replay.Legal(history, steps)
      modifies this`history, this`clock, db
      ensures Ok() && history == Replay.Execute(old(history), steps)
    {
      hide Ok, Replay.Next, Replay.Enabled;
      var i := 0;
      assert steps[0..] == steps;
      while i < |steps|
        invariant i <= |steps| && Ok()
        invariant Replay.Legal(history, steps[i..])
        invariant Replay.Execute(history, steps[i..]) == Replay.Execute(old(history), steps)
      {
        assert steps[i..][1..] == steps[i + 1..];
        Other(steps[i]);
        i := i + 1;
      }
    }

    /** Begin, with its event in the history. */
    method Claim(key: RunKey, fp: string, newRun: RunId) returns (outcome: BeginOutcome)
      requires Ok() && newRun !in history.issued
      modifies this`history, db
      ensures Ok() && history == Replay.Next(old(history), Replay.Begin(key, fp, newRun))
      ensures outcome == BeginRun(old(history).tables, key, fp, newRun, old(history).now).1
    {
      Replay.StepKeeps(history, Replay.Begin(key, fp, newRun));
      outcome := db.Begin(key, fp, newRun, clock);
      history := Replay.Next(history, Replay.Begin(key, fp, newRun));
    }

    method Finish(run: RunId, key: RunKey, result: RunResult) returns (outcome: FinishOutcome)
      requires Ok()
      modifies this`history, db
      ensures Ok() && history == Replay.Next(old(history), Replay.Finish(run, key, result, retention))
      ensures outcome == FinishRun(old(history).tables, run, key, result, retention, old(history).now).1
    {
      Replay.StepKeeps(history, Replay.Finish(run, key, result, retention));
      outcome := db.Finish(run, key, result, retention, clock);
      history := Replay.Next(history, Replay.Finish(run, key, result, retention));
    }

    method Abandon(run: RunId, key: RunKey, ghost fp: string)
      requires Ok() && Mine(history, run, key, fp)
      modifies this`history, db
      ensures Ok() && history.log == old(history).log && GivenUp(history.tables, run, key)
    {
      Replay.StepKeeps(history, Replay.Abandon(run, key));
      db.Abandon(run, key, clock);
      history := Replay.Next(history, Replay.Abandon(run, key));
    }

    /** Acquire: the worker handed out, and those the pool loses, come out. */
    method Checkout(key: Pool.PoolKey, release: string, f: Pool.Faults) returns (got: Pool.Acquired)
      requires Ok()
      requires f.created.Some? ==> f.created.value !in pool.workers && pool.Attempts(f.created.value) == 0
      modifies pool, pool.quota
      ensures Ok()
      ensures old(pool.workers).Keys <= pool.workers.Keys
      ensures got.Got? ==> pool.Ready(got.worker, key, release) && got.worker !in old(pool.Out())
      ensures pool.Out() == old(pool.Out()) + (if got.Got? then {got.worker} else {})
                            + old(pool.Loses(key, release, clock, f.destroyRaises))
      ensures got.Got? ==> old(pool.Loses(key, release, clock, f.destroyRaises)) == {}
      ensures old(pool.Loses(key, release, clock, f.destroyRaises) * pool.Out()) == {}
      ensures var p := old(pool.Pops(key, release, clock));
              p.stale == [] ==> (got.Got? <==> pool.Provides(old(pool.workers), p, key, release, f))
    {
      hide Replay.Inv, Replay.Sound, Pool.WorkerPool.Ok, Pool.WorkerPool.Out, Pool.WorkerPool.Loses;
      hide Pool.WorkerPool.SettledPop, Pool.PopFrom, Pool.AfterPop;
      hide Pool.WorkerPool.Provides, Pool.WorkerPool.Decided;
      got := pool.Acquire(key, release, clock, f);
    }

    /** An invalidated worker is destroyed and out of use, whatever the backend says. */
    method Discard(w: Pool.WorkerId, backendRaises: bool)
      requires Ok() && w in pool.workers
      modifies pool`workers, pool`attempts, pool.quota
      ensures Ok() && w in pool.workers && pool.workers[w].destroyed && pool.workers.Keys == old(pool.workers).Keys
      ensures pool.Out() == old(pool.Out()) - {w}
    {
      hide Replay.Inv, Replay.Sound, Pool.Filed, Pool.Balanced;
      pool.Invalidate(w, backendRaises);
    }

    /** After a terminal result the worker goes back to the pool or is destroyed. */
    method GiveBack(w: Pool.WorkerId, result: RunResult, policy: Policy, backendRaises: bool)
      requires Ok() && w in pool.workers && !Pool.IsIdle(pool.idle, w)
      modifies pool, pool.quota
      ensures Ok() && w in pool.workers && (pool.workers[w].destroyed || Pool.IsIdle(pool.idle, w))
      ensures pool.workers.Keys == old(pool.workers).Keys
      ensures pool.Out() == old(pool.Out()) - {w}
      ensures Pool.IsIdle(pool.idle, w) <==>
              && (result.status == "SUCCEEDED" || result.errorCode in REUSABLE_ERRORS)
              && policy.reuse && old(pool.workers)[w].healthy && !old(pool.workers)[w].destroyed
    {
      hide Replay.Inv, Replay.Sound, Pool.Filed, Pool.Balanced, Pool.IsIdle;
      if MayReuse(result) {
        Pool.AppendAdds(pool.idle, pool.workers[w].key, w);
        var _ := pool.Release(w, clock, policy.reuse, backendRaises);
      } else {
        Discard(w, backendRaises);
      }
    }

    /** The result as stored and returned, or the error that refuses it. */
    method Accept(result: RunResult, release: Release) returns (safe: RunResult, error: string)
      ensures safe == Visible(result, release)
      ensures error == "" <==> Acceptable(safe)
      ensures error in {"", "TOO_MANY_ATTRIBUTES", "ATTRIBUTES_TOO_LARGE", "OUTPUT_TOO_LARGE"}
    {
      safe := result.(attributes := Attributes.Filter(result.attributes, release.outputs));
      var verdict := Attributes.Validate(safe.attributes);
      error := Refusal(verdict);
      if error == "" && |result.content| > MAX_INLINE_BYTES { error := "OUTPUT_TOO_LARGE"; }
    }

    /** From the backend run to the committed result; Failed leaves the worker to the caller. */
    method RunAndFinish(release: Release, key: RunKey, ghost fp: string, run: RunId, w: World)
      returns (reply: Reply)
      requires Ok() && Mine(history, run, key, fp)
      requires Replay.Legal(history, w.during) && AllForeign(w.during, run)
      modifies this`history, this`clock, db
      ensures Ok() && (reply.Returned? || reply.Failed?)
      ensures reply.Failed? ==> Mine(history, run, key, fp)
      ensures reply.Returned? ==> Settled(history, run, key, fp, reply.result)
      ensures reply.Returned? <==> Delivers(Replay.Execute(old(history), w.during).tables, run, w.ran, release)
      ensures reply.Returned? ==> w.ran.Some? && reply.result == Visible(w.ran.value, release)
      ensures reply == Failed("RUNNER_INFRASTRUCTURE_ERROR") <==> w.ran.None?
      ensures reply == Failed("RUN_STATE_LOST") <==>
              w.ran.Some? && Acceptable(Visible(w.ran.value, release))
              && !IsRunning(Replay.Execute(old(history), w.during).tables, run)
    {
      hide Replay.Inv, Replay.Sound, Pool.WorkerPool.Ok, Mine, Acceptable;
      Displaceable(history, w.during, run, key, fp);
      Others(w.during);
      if w.ran == None { return Failed("RUNNER_INFRASTRUCTURE_ERROR"); }
      var result, error := Accept(w.ran.value, release);
      if error != "" { return Failed(error); }
      ghost var before := history;
      FinishesIfRunning(before, run, key, fp, result, retention);
      var outcome := Finish(run, key, result);
      FinishSettles(before, run, key, fp, result, retention);
      if outcome != Finished {
        return Failed(if outcome == RunStateLost then "RUN_STATE_LOST" else "IDEMPOTENCY_STATE_LOST");
      }
      reply := Returned(result);
    }

    /** With a worker in hand: register, run, finish, and let go of the worker. */
    method Use(worker: Pool.WorkerId, r: Request, release: Release, policy: Policy,
               key: RunKey, ghost fp: string, run: RunId, w: World) returns (reply: Reply)
      requires Ok() && Mine(history, run, key, fp)
      requires Replay.Legal(history, w.during) && AllForeign(w.during, run)
      requires worker in pool.workers && !Pool.IsIdle(pool.idle, worker)
      modifies this`history, this`clock, this`active, db, pool, pool.quota
      ensures Ok() && active - {r.invocation} == old(active) - {r.invocation}
      ensures pool.workers.Keys == old(pool.workers).Keys
      ensures pool.Out() == old(pool.Out()) - {worker}
      ensures reply.Returned? || (reply.Failed? && Mine(history, run, key, fp))
      ensures reply.Returned? ==> Settled(history, run, key, fp, reply.result)
      ensures reply.Returned? <==>
              w.registered == None && r.invocation !in old(active)
              && Delivers(Replay.Execute(old(history), w.during).tables, run, w.ran, release)
      ensures reply.Returned? ==> w.ran.Some? && reply.result == Visible(w.ran.value, release)
      ensures worker in pool.workers && (pool.workers[worker].destroyed || Pool.IsIdle(pool.idle, worker))
      ensures Pool.IsIdle(pool.idle, worker) <==>
              && reply.Returned? && !w.cancelled && policy.reuse
              && (reply.result.status == "SUCCEEDED" || reply.result.errorCode in REUSABLE_ERRORS)
              && old(pool.workers)[worker].healthy && !old(pool.workers)[worker].destroyed
    {
      hide Replay.Inv, Replay.Sound, Replay.Legal, Replay.Execute;
      hide Pool.WorkerPool.Ok, Mine, Settled, Delivers, Pool.IsIdle;
      if w.registered.Some? { active := active[r.invocation := w.registered.value]; }
      if r.invocation in active {
        Discard(worker, w.cleanupRaises);
        return Failed("INVOCATION_ID_IN_USE");
      }
      active := active[r.invocation := ActiveRun(r.tenant, r.lease, worker)];
      if w.cancelled { var _ := Cancel(r.tenant, r.lease, r.invocation, None, w.cleanupRaises); }
      reply := RunAndFinish(release, key, fp, run, w);
      if reply.Returned? {
        GiveBack(worker, reply.result, policy, w.cleanupRaises);
      } else {
        Discard(worker, w.cleanupRaises);
      }
    }

    /** Invoke from the claim on. */
    method Execute(r: Request, release: Release, policy: Policy, key: RunKey, ghost fp: string,
                   run: RunId, w: World) returns (reply: Reply)
      requires Ok() && Mine(history, run, key, fp) && r.invocation !in active
      requires Possible(history, run, w)
      modifies this`history, this`clock, this`active, db, pool, pool.quota
      ensures Ok() && active == old(active) && (reply.Returned? || reply.Failed?)
      ensures old(pool.workers).Keys <= pool.workers.Keys
      ensures reply.Failed? ==> GivenUp(history.tables, run, key)
      ensures reply.Returned? ==> Settled(history, run, key, fp, reply.result)
      ensures reply.Returned? ==> w.ran.Some? && reply.result == Visible(w.ran.value, release)
      ensures pool.Out() == old(pool.Out() + Loses(r, release, w, Replay.Execute(history, w.before).now))
      ensures old(pool.Out() * Loses(r, release, w, Replay.Execute(history, w.before).now)) == {}
      ensures reply.Returned? ==> Served(old(history), release, run, w)
      ensures old(Clean(r, release, Replay.Execute(history, w.before).now)) ==>
                (reply.Returned? <==> Served(old(history), release, run, w)
                                      && old(Supplied(r, release, w, Replay.Execute(history, w.before).now)))
    {
      hide Replay.Inv, Replay.Sound, Pool.WorkerPool.Ok, Mine, Settled, GivenUp, Replay.Legal, Pool.WorkerPool.Out;
      hide Delivers, Pool.WorkerPool.Loses, Replay.Execute, AllForeign, Pool.WorkerPool.Provides, Pool.WorkerPool.Pops;
      Displaceable(history, w.before, run, key, fp);
      Others(w.before);
      var got := Checkout(PoolKeyOf(r, release), release.id, w.faults);
      if got.Got? {
        reply := Use(got.worker, r, release, policy, key, fp, run, w);
      } else {
        reply := Failed("ACQUIRE");
      }
      if reply.Failed? { Abandon(run, key, fp); }
      active := active - {r.invocation};
    }

    /** The workers that this call's acquire loses if it runs at this time. */
    ghost function Loses(r: Request, release: Release, w: World, at: int): set<Pool.WorkerId>
      reads pool
    {
      pool.Loses(PoolKeyOf(r, release), release.id, at, w.faults.destroyRaises)
    }

    /** This call's acquire finds no worker that it has to discard first. */
    ghost predicate Clean(r: Request, release: Release, at: int)
      reads pool
    {
      pool.Pops(PoolKeyOf(r, release), release.id, at).stale == []
    }

    /** And then gets a worker. */
    ghost predicate Supplied(r: Request, release: Release, w: World, at: int)
      reads pool, pool.quota
    {
      pool.Provides(pool.workers, pool.Pops(PoolKeyOf(r, release), release.id, at), PoolKeyOf(r, release), release.id,
                    w.faults)
    }

    /** Nobody else uses the invocation id, the backend delivers, and nobody has displaced
        the run when it does. */
    ghost predicate Served(s: Replay.System, release: Release, run: RunId, w: World)
      requires Replay.Legal(s, w.before) && Replay.Legal(Replay.Execute(s, w.before), w.during)
    {
      w.registered == None
      && Delivers(Replay.Execute(Replay.Execute(s, w.before), w.during).tables, run, w.ran, release)
    }

    /** What a call needs of the steps around it: they are possible, and not its own. */
    ghost predicate Possible(s: Replay.System, run: RunId, w: World)
      reads this, pool
    {
      && Replay.Legal(s, w.before) && AllForeign(w.before, run)
      && Replay.Legal(Replay.Execute(s, w.before), w.during) && AllForeign(w.during, run)
      && (w.faults.created.Some? ==>
            w.faults.created.value !in pool.workers && pool.Attempts(w.faults.created.value) == 0)
    }

    /** Nothing about the request itself stands in its way. */
    ghost predicate Admissible(r: Request, release: Release, leased: bool)
      reads this
    {
      && |r.content| <= MAX_INLINE_BYTES && r.key != "" && leased && release.profile in policies
      && Attributes.WithinLimits(Attributes.Filter(r.attributes, release.inputs))
      && Attributes.WithinLimits(r.parameters) && r.invocation !in active
    }

    /** What is refused before anything is claimed. */
    method Precheck(r: Request, release: Release, leased: bool) returns (code: string)
      ensures code == "" <==> Admissible(r, release, leased)
      ensures code == "INLINE_CONTENT_TOO_LARGE" <==> |r.content| > MAX_INLINE_BYTES
      ensures code == "INVOCATION_ID_IN_USE" ==> r.invocation in active
      ensures code !in {"IDEMPOTENCY_CONFLICT", "RUN_IN_PROGRESS"}
    {
      if |r.content| > MAX_INLINE_BYTES { return "INLINE_CONTENT_TOO_LARGE"; }
      if r.key == "" { return "IDEMPOTENCY_REQUIRED"; }
      if !leased { return "LEASE"; }
      if release.profile !in policies { return "UNKNOWN_SECURITY_POLICY"; }
      var verdict := Attributes.Validate(Attributes.Filter(r.attributes, release.inputs));
      if verdict != Attributes.Accepted { return Refusal(verdict); }
      verdict := Attributes.Validate(r.parameters);
      if verdict != Attributes.Accepted { return Refusal(verdict); }
      code := if r.invocation in active then "INVOCATION_ID_IN_USE" else "";
    }

    /** A call that claims a run ends it: DONE with the returned result, or ABANDONED
        with the key free. Its worker is idle or destroyed; of all others exactly those
        that its acquire loses leave the idle lists alive. */
    method Invoke(r: Request, release: Release, leased: bool, run: RunId, w: World) returns (reply: Reply)
      requires Ok() && run !in history.issued
      requires Possible(Claimed(r, release, run), run, w)
      modifies this`history, this`clock, this`active, db, pool, pool.quota
      ensures Ok() && active == old(active) && (old(Registered()) ==> Registered())
      ensures !old(Admissible(r, release, leased)) ==>
                reply.Refused? && reply.code !in {"IDEMPOTENCY_CONFLICT", "RUN_IN_PROGRESS"}
      ensures old(Admissible(r, release, leased)) ==> Dispatched(old(history), r, release, reply)
      ensures old(Admissible(r, release, leased)) ==>
                forall earlier :: ClaimedBy(old(history), earlier, r, release) ==>
                  (reply == Refused("IDEMPOTENCY_CONFLICT") <==>
                   !SameRequest(earlier, r, release, policies[release.profile]))
      ensures reply.Refused? ==> history.tables == old(history).tables && history.log == old(history).log
      ensures reply.Cached? ==>
                && history.tables == old(history).tables
                && history.log == old(history).log + [Replay.Replayed(KeyOf(r, release), FingerprintOf(r, release),
                                                                      reply.result, old(history).now)]
      ensures reply.Failed? ==> GivenUp(history.tables, run, KeyOf(r, release))
      ensures reply.Returned? ==> Settled(history, run, KeyOf(r, release), FingerprintOf(r, release), reply.result)
      ensures reply.Returned? ==> w.ran.Some? && reply.result == Visible(w.ran.value, release)
      ensures reply.Refused? || reply.Cached? ==> pool.Out() == old(pool.Out())
      ensures reply.Returned? || reply.Failed? ==>
                pool.Out() == old(pool.Out() + Loses(r, release, w, AcquiredAt(r, release, run, w)))
      ensures reply.Returned? || reply.Failed? ==>
                (pool.Out() == old(pool.Out()) <==>
                 old(Loses(r, release, w, AcquiredAt(r, release, run, w))) == {})
      ensures reply.Returned? ==> Served(old(Claimed(r, release, run)), release, run, w)
      ensures (reply.Returned? || reply.Failed?) && old(Clean(r, release, AcquiredAt(r, release, run, w))) ==>
                (reply.Returned? <==> Served(old(Claimed(r, release, run)), release, run, w)
                                      && old(Supplied(r, release, w, AcquiredAt(r, release, run, w))))
    {
      hide Replay.Inv, Replay.Sound, Pool.WorkerPool.Ok, Pool.WorkerPool.Out, Settled, GivenUp, Loses;
      hide ClaimedBy, SameRequest, IdentityOf, Served, Supplied, Clean, Attributes.WithinLimits, Attributes.Filter;
      var refusal := Precheck(r, release, leased);
      if refusal != "" { return Refused(refusal); }
      var policy := policies[release.profile];
      var key, fp := KeyOf(r, release), fingerprint(IdentityOf(r, release, policy));
      var outcome := Claim(key, fp, run);
      match outcome {
        case IdempotencyConflict => reply := Refused("IDEMPOTENCY_CONFLICT");
        case RunInProgress => reply := Refused("RUN_IN_PROGRESS");
        case Cached(result) => reply := Reply.Cached(result);
        case NewRun(_) => reply := Execute(r, release, policy, key, fp, run, w);
      }
      forall earlier | ClaimedBy(old(history), earlier, r, release)
        ensures reply == Refused("IDEMPOTENCY_CONFLICT") <==> !SameRequest(earlier, r, release, policy)
      {
        ConflictExactly(old(history), earlier, r, release, reply);
      }
    }

    /** The reply by what the key's claim said before the call: another fingerprint is a
        conflict, a RUNNING claim means waiting, a live result is replayed, and only
        otherwise is there a new run. */
    ghost predicate Dispatched(before: Replay.System, r: Request, release: Release, reply: Reply)
      reads this
    {
      var keys, key := before.tables.keys, KeyOf(r, release);
      if key !in keys then reply.Returned? || reply.Failed?
      else if keys[key].fingerprint != FingerprintOf(r, release) then reply == Refused("IDEMPOTENCY_CONFLICT")
      else if keys[key].running then reply == Refused("RUN_IN_PROGRESS")
      else if CacheValid(keys[key], before.now) then reply == Reply.Cached(keys[key].result.value)
      else reply.Returned? || reply.Failed?
    }

    /** The fingerprint tells these two requests apart if they are different. */
    ghost predicate Separates(a: Request, b: Request, release: Release)
      requires release.profile in policies
      reads this
    {
      var policy := policies[release.profile];
      fingerprint(IdentityOf(a, release, policy)) == fingerprint(IdentityOf(b, release, policy)) ==>
        IdentityOf(a, release, policy) == IdentityOf(b, release, policy)
    }

    /** The key's claim was made by this earlier request, which the fingerprint tells apart
        from the present one if they differ. */
    ghost predicate ClaimedBy(before: Replay.System, earlier: Request, r: Request, release: Release)
      requires release.profile in policies
      reads this
    {
      && KeyOf(r, release) in before.tables.keys && Separates(earlier, r, release)
      && before.tables.keys[KeyOf(r, release)].fingerprint == FingerprintOf(earlier, release)
    }

    /** Two requests under one key conflict exactly when they differ. */
    lemma ConflictExactly(before: Replay.System, earlier: Request, r: Request, release: Release, reply: Reply)
      requires release.profile in policies && ClaimedBy(before, earlier, r, release)
      requires Dispatched(before, r, release, reply)
      ensures reply == Refused("IDEMPOTENCY_CONFLICT") <==> !SameRequest(earlier, r, release, policies[release.profile])
    {
      IdentityIsTheRequest(earlier, r, release, policies[release.profile], release);
    }

    /** Active calls hold workers of the pool. */
    predicate Registered()
      reads this, pool
    {
      forall id :: id in active ==> active[id].worker in pool.workers
    }

    /** Only the caller's own call is touched. If the backend cannot be reached the worker
        is destroyed, once, even if its invoke is destroying it as well. */
    method Cancel(tenant: string, lease: string, invocation: string, answer: Option<bool>, backendRaises: bool)
      returns (outcome: CancelOutcome)
      requires Ok() && (invocation in active ==> active[invocation].worker in pool.workers)
      modifies pool`workers, pool`attempts, pool.quota
      ensures Ok() && (old(Registered()) ==> Registered())
      ensures outcome.CancelFailed? <==> !outcome.NotActive? && !outcome.Forbidden? && answer == None
      ensures outcome.NotActive? <==> invocation !in active
      ensures outcome.Forbidden? <==>
              invocation in active && !(active[invocation].tenant == tenant && active[invocation].lease == lease)
      ensures pool.Out() == old(pool.Out()) - (if outcome == CancelFailed then {active[invocation].worker} else {})
      ensures outcome.Answered? ==> answer == Some(outcome.stopped)
      ensures pool.workers == if outcome != CancelFailed then old(pool.workers)
                              else var w := active[invocation].worker;
                                   old(pool.workers)[w := old(pool.workers)[w].(healthy := false, destroyed := true)]
    {
      hide Replay.Inv, Replay.Sound, Pool.Filed, Pool.Balanced;
      if invocation !in active { return NotActive; }
      var run := active[invocation];
      if run.tenant != tenant || run.lease != lease { return Forbidden; }
      if answer.Some? { return Answered(answer.value); }
      pool.Invalidate(run.worker, backendRaises);
      outcome := CancelFailed;
    }

    /** Calls meet in one idempotency key or one idle list exactly if the tenant is the same,
        and key and release, or runtime and profile. */
    lemma WhereCallsMeet(a: Request, b: Request, x: Release, y: Release)
      ensures KeyOf(a, x) == KeyOf(b, y) <==> a.tenant == b.tenant && a.key == b.key && x.id == y.id
      ensures PoolKeyOf(a, x) == PoolKeyOf(b, y) <==>
              a.tenant == b.tenant && x.runtime == y.runtime && x.profile == y.profile
      ensures PoolKeyOf(a, x).tenant == KeyOf(a, x).tenant == a.tenant && PoolKeyOf(a, x).runtime == x.runtime
    {}

    function KeyOf(r: Request, release: Release): RunKey {
      RunKey(r.tenant, release.id, r.key)
    }

    function PoolKeyOf(r: Request, release: Release): Pool.PoolKey {
      Pool.PoolKey(r.tenant, release.runtime, release.profile)
    }

    function FingerprintOf(r: Request, release: Release): string {
      if release.profile in policies then fingerprint(IdentityOf(r, release, policies[release.profile])) else ""
    }

    /** When a call that claims a run gets to acquire. */
    ghost function AcquiredAt(r: Request, release: Release, run: RunId, w: World): int
      reads this
    {
      Replay.Execute(Claimed(r, release, run), w.before).now
    }

    /** The history right after a call's claim. */
    ghost function Claimed(r: Request, release: Release, run: RunId): Replay.System
      reads this
    {
      Replay.Next(history, Replay.Begin(KeyOf(r, release), FingerprintOf(r, release), run))
    }
  }
}
