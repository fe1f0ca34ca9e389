/** Executions of the Runner's database transactions in any order, with the
    history of what was started, finished and replayed. */
module Replay {
  import opened Wrappers
  import opened RunTables

  datatype Event =
    | Started(key: RunKey, fingerprint: string, run: RunId, at: int)
    | Completed(key: RunKey, fingerprint: string, run: RunId, result: RunResult, until: int)
    | Replayed(key: RunKey, fingerprint: string, result: RunResult, at: int)

  /** `issued` holds every run id that was ever generated. */
  datatype System = System(tables: Tables, issued: set<RunId>, now: int, log: seq<Event>)

  /** One transaction of some invoke, the reaper or a restart, or time passing. */
  datatype Step =
    | Begin(key: RunKey, fingerprint: string, run: RunId)
    | Finish(run: RunId, key: RunKey, result: RunResult, retention: int)
    | Abandon(run: RunId, key: RunKey)
    | Restart
    | PurgeKeys
    | PurgeRuns(olderThan: int)
    | Tick(elapsed: nat)

  /** Run ids are fresh, and a run is abandoned under the key it was begun with. */
  predicate Enabled(s: System, step: Step) {
    && (step.Begin? ==> step.run !in s.issued)
    && (step.Abandon? ==> step.run in s.tables.runs ==> s.tables.runs[step.run].key == step.key)
  }

  function Next(s: System, step: Step): System {
    var t := s.tables;
    match step
    case Begin(key, fp, run) =>
      var (t', outcome) := BeginRun(t, key, fp, run, s.now);
      var seen := match outcome
        case NewRun(_) => [Started(key, fp, run, s.now)]
        case Cached(result) => [Replayed(key, fp, result, s.now)]
        case _ => [];
      System(t', s.issued + {run}, s.now, s.log + seen)
    case Finish(run, key, result, retention) =>
      var (t', outcome) := FinishRun(t, run, key, result, retention, s.now);
      s.(tables := t',
         log := if outcome == Finished
                then s.log + [Completed(key, t.runs[run].fingerprint, run, result,
                                        Expiry(result, retention, s.now))]
                else s.log)
    case Abandon(run, key) => s.(tables := AbandonRun(t, run, key, s.now))
    case Restart => s.(tables := ResetRunning(t, s.now))
    case PurgeKeys => s.(tables := PurgeExpired(t, s.now))
    case PurgeRuns(olderThan) => s.(tables := PurgeOldRuns(t, olderThan, s.now))
    case Tick(elapsed) => s.(now := s.now + elapsed)
  }

  function Execute(s: System, steps: seq<Step>): System
    decreases |steps|
  {
    if steps == [] then s else Execute(Next(s, steps[0]), steps[1..])
  }

  predicate Legal(s: System, steps: seq<Step>)
    decreases |steps|
  {
    steps == [] || (Enabled(s, steps[0]) && Legal(Next(s, steps[0]), steps[1..]))
  }

  const INITIAL: System := System(Tables(map[], map[]), {}, 0, [])

  /** No run of the key starts in log[from..to]. */
  ghost predicate Quiet(log: seq<Event>, key: RunKey, from: int, to: int) {
    forall j :: from <= j < to && 0 <= j < |log| ==> !(log[j].Started? && log[j].key == key)
  }

  /** log[i] is the completion that the replay log[j] hands out again. */
  ghost predicate Sources(log: seq<Event>, i: int, j: int) {
    && 0 <= i < j < |log| && log[j].Replayed? && log[i].Completed?
    && log[i].key == log[j].key && log[i].fingerprint == log[j].fingerprint
    && log[i].result == log[j].result && !log[i].result.retryable
    && log[j].at < log[i].until
    && Quiet(log, log[i].key, i, j)
  }

  /** log[h] is the start of the run that log[i] completes. */
  ghost predicate Begins(log: seq<Event>, h: int, i: int) {
    && 0 <= h < i < |log| && log[i].Completed?
    && log[h].Started? && log[h].key == log[i].key
    && log[h].fingerprint == log[i].fingerprint && log[h].run == log[i].run
  }

  ghost predicate StartLogged(log: seq<Event>, key: RunKey, fingerprint: string, run: RunId) {
    exists h :: StartsRun(log, h, key, fingerprint, run)
  }

  predicate StartsRun(log: seq<Event>, h: int, key: RunKey, fingerprint: string, run: RunId) {
    && 0 <= h < |log| && log[h].Started? && log[h].key == key
    && log[h].fingerprint == fingerprint && log[h].run == run
  }

  /** log[i] is the completion cached under the key. */
  ghost predicate Backs(log: seq<Event>, i: int, key: RunKey, c: Claim) {
    && 0 <= i < |log| && log[i].Completed? && log[i].key == key
    && log[i].fingerprint == c.fingerprint && c.result == Some(log[i].result)
    && !log[i].result.retryable && c.expiresAt == Some(log[i].until)
    && Quiet(log, key, i, |log|)
  }

  ghost predicate RunsLogged(s: System) {
    forall r :: IsRunning(s.tables, r) ==>
      && r in s.issued
      && StartLogged(s.log, s.tables.runs[r].key, s.tables.runs[r].fingerprint, r)
      && s.tables.runs[r].key in s.tables.keys
      && s.tables.keys[s.tables.runs[r].key].fingerprint == s.tables.runs[r].fingerprint
  }

  ghost predicate CacheBacked(s: System) {
    forall k :: k in s.tables.keys && s.tables.keys[k].replayable ==>
      !s.tables.keys[k].running && exists i :: Backs(s.log, i, k, s.tables.keys[k])
  }

  /** log[i] is a non-retryable completion that has not expired. */
  predicate Live(s: System, i: int) {
    && 0 <= i < |s.log| && s.log[i].Completed?
    && !s.log[i].result.retryable && s.log[i].until > s.now
  }

  ghost predicate CacheKept(s: System) {
    forall i :: Live(s, i) ==>
      && s.log[i].key in s.tables.keys && s.tables.keys[s.log[i].key].replayable
      && Backs(s.log, i, s.log[i].key, s.tables.keys[s.log[i].key])
  }

  ghost predicate Inv(s: System) {
    Consistent(s.tables) && RunsLogged(s) && CacheBacked(s) && CacheKept(s)
  }

  /** A run of the key that starts at time t leaves the completion log[i] alone. */
  predicate StartsAfter(log: seq<Event>, i: int, key: RunKey, at: int) {
    0 <= i < |log| && log[i].Completed? && !log[i].result.retryable && log[i].key == key ==>
      log[i].until <= at
  }

  /** What the history promises. */
  ghost predicate Sound(log: seq<Event>) {
    // every replayed result was the non-retryable result of an earlier run of the
    // same key and fingerprint, still unexpired, with no run started in between
    && (forall j :: 0 <= j < |log| && log[j].Replayed? ==> exists i :: Sources(log, i, j))
    // every completion completes a run that was started for its key and fingerprint
    && (forall i :: 0 <= i < |log| && log[i].Completed? ==> exists h :: Begins(log, h, i))
    // no run starts between a non-retryable completion and its expiry
    && (forall i, j :: 0 <= i < j < |log| && log[j].Started? ==>
          StartsAfter(log, i, log[j].key, log[j].at))
  }

  /** The log grows by one event: what it promised of the old part still holds. */
  lemma SoundExtends(log: seq<Event>, e: Event)
    requires Sound(log)
    requires e.Replayed? ==> exists i :: Sources(log + [e], i, |log|)
    requires e.Completed? ==> exists h :: Begins(log + [e], h, |log|)
    requires e.Started? ==> forall i :: StartsAfter(log, i, e.key, e.at)
    ensures Sound(log + [e])
  {
    var longer := log + [e];
    forall j | 0 <= j < |longer| && longer[j].Replayed? ensures exists i :: Sources(longer, i, j) {
      if j < |log| {
        var i :| Sources(log, i, j);
        assert Sources(longer, i, j);
      }
    }
    forall i | 0 <= i < |longer| && longer[i].Completed? ensures exists h :: Begins(longer, h, i) {
      if i < |log| {
        var h :| Begins(log, h, i);
        assert Begins(longer, h, i);
      }
    }
    forall i, j | 0 <= i < j < |longer| && longer[j].Started?
      ensures StartsAfter(longer, i, longer[j].key, longer[j].at)
    {
      assert StartsAfter(log, i, longer[j].key, longer[j].at);
    }
  }

  /** An event that starts no run of the key leaves its cache entry backed. */
  lemma BacksExtends(log: seq<Event>, e: Event, i: int, key: RunKey, c: Claim)
    requires Backs(log, i, key, c) && !(e.Started? && e.key == key)
    ensures Backs(log + [e], i, key, c)
  {}

  lemma BeginKeeps(s: System, key: RunKey, fp: string, run: RunId)
    requires Inv(s) && Sound(s.log) && run !in s.issued
    ensures Inv(Next(s, Begin(key, fp, run))) && Sound(Next(s, Begin(key, fp, run)).log)
  {
    match BeginRun(s.tables, key, fp, run, s.now).1
    case NewRun(_) => StartKeeps(s, key, fp, run);
    case Cached(_) => CachedKeeps(s, key, fp, run);
    case _ => assert s.log + [] == s.log;
  }

  lemma CachedKeeps(s: System, key: RunKey, fp: string, run: RunId)
    requires Inv(s) && Sound(s.log)
    requires BeginRun(s.tables, key, fp, run, s.now).1.Cached?
    ensures Inv(Next(s, Begin(key, fp, run))) && Sound(Next(s, Begin(key, fp, run)).log)
  {
    var claim := s.tables.keys[key];
    var e := Replayed(key, fp, claim.result.value, s.now);
    var i :| Backs(s.log, i, key, claim);
    assert Sources(s.log + [e], i, |s.log|);
    SoundExtends(s.log, e);
    UntouchedTables(s, e, run);
  }

  /** An event that starts nothing and changes no table. */
  lemma UntouchedTables(s: System, e: Event, run: RunId)
    requires Inv(s) && e.Replayed?
    ensures Inv(System(s.tables, s.issued + {run}, s.now, s.log + [e]))
  {
    var n := System(s.tables, s.issued + {run}, s.now, s.log + [e]);
    LogExtends(s, e);
    forall k | k in n.tables.keys && n.tables.keys[k].replayable
      ensures exists i :: Backs(n.log, i, k, n.tables.keys[k])
    {
      var i :| Backs(s.log, i, k, s.tables.keys[k]);
      BacksExtends(s.log, e, i, k, s.tables.keys[k]);
    }
    forall i | Live(n, i) ensures Backs(n.log, i, n.log[i].key, n.tables.keys[n.log[i].key]) {
      assert Live(s, i);
      BacksExtends(s.log, e, i, s.log[i].key, s.tables.keys[s.log[i].key]);
    }
  }

  lemma LogExtends(s: System, e: Event)
    ensures forall k, f, r :: StartLogged(s.log, k, f, r) ==> StartLogged(s.log + [e], k, f, r)
  {
    forall k, f, r | StartLogged(s.log, k, f, r) ensures StartLogged(s.log + [e], k, f, r) {
      var h :| StartsRun(s.log, h, k, f, r);
      assert StartsRun(s.log + [e], h, k, f, r);
    }
  }

  lemma StartKeeps(s: System, key: RunKey, fp: string, run: RunId)
    requires Inv(s) && Sound(s.log) && run !in s.issued
    requires BeginRun(s.tables, key, fp, run, s.now).1.NewRun?
    ensures Inv(Next(s, Begin(key, fp, run))) && Sound(Next(s, Begin(key, fp, run)).log)
  {
    var e, n := Started(key, fp, run, s.now), Next(s, Begin(key, fp, run));
    forall i ensures StartsAfter(s.log, i, key, s.now) {
      if Live(s, i) && s.log[i].key == key { assert CacheValid(s.tables.keys[key], s.now); }
    }
    SoundExtends(s.log, e);
    LogExtends(s, e);
    assert n.log[|s.log|] == e && StartsRun(n.log, |s.log|, key, fp, run);
    forall k | k in n.tables.keys && n.tables.keys[k].replayable
      ensures exists i :: Backs(n.log, i, k, n.tables.keys[k])
    {
      var i :| Backs(s.log, i, k, s.tables.keys[k]);
      BacksExtends(s.log, e, i, k, s.tables.keys[k]);
    }
    forall i | Live(n, i)
      ensures n.log[i].key in n.tables.keys && n.tables.keys[n.log[i].key].replayable
      ensures Backs(n.log, i, n.log[i].key, n.tables.keys[n.log[i].key])
    {
      assert Live(s, i);
      assert StartsAfter(s.log, i, key, s.now);
      BacksExtends(s.log, e, i, s.log[i].key, s.tables.keys[s.log[i].key]);
    }
  }

  lemma FinishKeeps(s: System, run: RunId, key: RunKey, result: RunResult, retention: int)
    requires Inv(s) && Sound(s.log)
    ensures Inv(Next(s, Finish(run, key, result, retention)))
    ensures Sound(Next(s, Finish(run, key, result, retention)).log)
  {
    if FinishRun(s.tables, run, key, result, retention, s.now).1 == Finished {
      var fp := s.tables.runs[run].fingerprint;
      var e := Completed(key, fp, run, result, Expiry(result, retention, s.now));
      var h :| StartsRun(s.log, h, key, fp, run);
      assert Begins(s.log + [e], h, |s.log|);
      SoundExtends(s.log, e);
      CompletionKeeps(s, run, key, result, retention);
    }
  }

  lemma CompletionKeeps(s: System, run: RunId, key: RunKey, result: RunResult, retention: int)
    requires Inv(s)
    requires FinishRun(s.tables, run, key, result, retention, s.now).1 == Finished
    ensures Inv(Next(s, Finish(run, key, result, retention)))
  {
    var n := Next(s, Finish(run, key, result, retention));
    var e := Completed(key, s.tables.runs[run].fingerprint, run, result,
                       Expiry(result, retention, s.now));
    LogExtends(s, e);
    assert RunsLogged(n);
    assert CacheBacked(n) && CacheKept(n) by {
      hide Consistent, RunsLogged;
      assert n.log[|s.log|] == e;
      if !result.retryable { assert Backs(n.log, |s.log|, key, n.tables.keys[key]); }
      OthersBacked(s, n, e);
    }
  }

  /** A completion for one key leaves the cache entries of the others as they were. */
  lemma OthersBacked(s: System, n: System, e: Event)
    requires CacheBacked(s) && CacheKept(s)
    requires e.Completed? && n.log == s.log + [e] && n.now == s.now
    requires e.key in s.tables.keys && s.tables.keys[e.key].running
    requires n.tables.keys.Keys == s.tables.keys.Keys
    requires forall k :: k in s.tables.keys && k != e.key ==> n.tables.keys[k] == s.tables.keys[k]
    requires !e.result.retryable ==>
               Backs(n.log, |s.log|, e.key, n.tables.keys[e.key]) && n.tables.keys[e.key].replayable
    requires n.tables.keys[e.key].replayable ==> !e.result.retryable && !n.tables.keys[e.key].running
    ensures CacheBacked(n) && CacheKept(n)
  {
    forall k | k in n.tables.keys && n.tables.keys[k].replayable
      ensures !n.tables.keys[k].running && exists i :: Backs(n.log, i, k, n.tables.keys[k])
    {
      if k != e.key {
        var i :| Backs(s.log, i, k, s.tables.keys[k]);
        BacksExtends(s.log, e, i, k, s.tables.keys[k]);
      }
    }
    forall i | Live(n, i)
      ensures n.log[i].key in n.tables.keys && n.tables.keys[n.log[i].key].replayable
      ensures Backs(n.log, i, n.log[i].key, n.tables.keys[n.log[i].key])
    {
      if i < |s.log| {
        assert Live(s, i) && s.log[i].key != e.key;
        BacksExtends(s.log, e, i, s.log[i].key, s.tables.keys[s.log[i].key]);
      }
    }
  }

  lemma AbandonKeeps(s: System, run: RunId, key: RunKey)
    requires Inv(s) && Enabled(s, Abandon(run, key))
    ensures Inv(Next(s, Abandon(run, key)))
  {}

  lemma RestartKeeps(s: System)
    requires Inv(s)
    ensures Inv(Next(s, Restart))
  {}

  lemma PurgeKeysKeeps(s: System)
    requires Inv(s)
    ensures Inv(Next(s, PurgeKeys))
  {}

  lemma PurgeRunsKeeps(s: System, olderThan: int)
    requires Inv(s)
    ensures Inv(Next(s, PurgeRuns(olderThan)))
  {}

  lemma TickKeeps(s: System, elapsed: nat)
    requires Inv(s)
    ensures Inv(Next(s, Tick(elapsed)))
  {
    forall i | Live(Next(s, Tick(elapsed)), i) ensures Live(s, i) {}
  }

  /** Every transaction keeps the tables consistent and the history sound. */
  lemma StepKeeps(s: System, step: Step)
    requires Inv(s) && Sound(s.log) && Enabled(s, step)
    ensures Inv(Next(s, step)) && Sound(Next(s, step).log)
  {
    match step
    case Begin(key, fp, run) => BeginKeeps(s, key, fp, run);
    case Finish(run, key, result, retention) => FinishKeeps(s, run, key, result, retention);
    case Abandon(run, key) => AbandonKeeps(s, run, key);
    case Restart => RestartKeeps(s);
    case PurgeKeys => PurgeKeysKeeps(s);
    case PurgeRuns(olderThan) => PurgeRunsKeeps(s, olderThan);
    case Tick(elapsed) => TickKeeps(s, elapsed);
  }

  /** The two promises over every run of the system. */
  lemma {:induction false} EveryExecution(s: System, steps: seq<Step>)
    requires Inv(s) && Sound(s.log) && Legal(s, steps)
    ensures var e := Execute(s, steps); Inv(e) && Consistent(e.tables) && Sound(e.log)
    decreases |steps|
  {
    if steps != [] {
      StepKeeps(s, steps[0]);
      EveryExecution(Next(s, steps[0]), steps[1..]);
    }
  }

  lemma FromTheStart(steps: seq<Step>)
    requires Legal(INITIAL, steps)
    ensures var e := Execute(INITIAL, steps); Consistent(e.tables) && Sound(e.log)
  {
    EveryExecution(INITIAL, steps);
  }

  /** A run that is issued and not RUNNING never runs again, so its holder's late
      finish or abandon changes nothing, whatever happened in between. */
  lemma {:induction false} DisplacedForever(s: System, steps: seq<Step>, run: RunId, key: RunKey,
                                            result: RunResult, retention: int)
    requires Inv(s) && Sound(s.log) && Legal(s, steps)
    requires run in s.issued && !IsRunning(s.tables, run)
    ensures var e := Execute(s, steps);
            && !IsRunning(e.tables, run)
            && Next(e, Finish(run, key, result, retention)) == e
            && Next(e, Abandon(run, key)) == e
    decreases |steps|
  {
    if steps == [] {
      DisplacedHolderIsHarmless(s.tables, run, key, result, retention, s.now);
    } else {
      StepKeeps(s, steps[0]);
      DisplacedForever(Next(s, steps[0]), steps[1..], run, key, result, retention);
    }
  }

  /** A restart displaces every holder. */
  lemma RestartDisplaces(s: System, run: RunId)
    ensures !IsRunning(Next(s, Restart).tables, run)
  {}
}
