/** The two tables behind idempotent execution: runner.runs (history) and
    runner.idempotency_keys (claims and replay cache), with one function per
    database transaction. */
module RunTables {
  import opened Wrappers
  type RunId = string

  datatype RunKey = RunKey(tenant: string, release: string, idempotency: string)

  datatype RunResult = RunResult(
    status: string, relationship: string, content: seq<bv8>, attributes: map<string, string>,
    retryable: bool, errorCode: string, errorMessage: string, workerId: string, durationMs: int)

  datatype RunState = RUNNING | DONE | ABANDONED
  datatype Run = Run(key: RunKey, fingerprint: string, state: RunState, completedAt: int)

  datatype Claim = Claim(
    fingerprint: string, running: bool, run: RunId,
    replayable: bool, result: Option<RunResult>, expiresAt: Option<int>)

  datatype Tables = Tables(runs: map<RunId, Run>, keys: map<RunKey, Claim>)

  datatype BeginOutcome =
    | NewRun(run: RunId) | Cached(result: RunResult) | IdempotencyConflict | RunInProgress
  datatype FinishOutcome = Finished | RunStateLost | IdempotencyStateLost

  predicate IsRunning(t: Tables, run: RunId) {
    run in t.runs && t.runs[run].state == RUNNING
  }

  predicate CacheValid(c: Claim, now: int) {
    !c.running && c.replayable && c.result.Some? && c.expiresAt.Some? && c.expiresAt.value > now
  }

  function BeginRun(t: Tables, key: RunKey, fingerprint: string, newRun: RunId, now: int)
    : (Tables, BeginOutcome)
  {
    if key in t.keys && t.keys[key].fingerprint != fingerprint then (t, IdempotencyConflict)
    else if key in t.keys && t.keys[key].running then (t, RunInProgress)
    else if key in t.keys && CacheValid(t.keys[key], now) then (t, Cached(t.keys[key].result.value))
    else (Tables(t.runs[newRun := Run(key, fingerprint, RUNNING, 0)],
                 t.keys[key := Claim(fingerprint, true, newRun, false, None, None)]),
          NewRun(newRun))
  }

  predicate HoldsClaim(t: Tables, run: RunId, key: RunKey) {
    key in t.keys && t.keys[key].run == run && t.keys[key].running
  }

  function Expiry(result: RunResult, retention: int, now: int): int {
    if result.retryable then now else now + retention
  }

  /** A transaction whose second update misses is rolled back as a whole. */
  function FinishRun(t: Tables, run: RunId, key: RunKey, result: RunResult, retention: int, now: int)
    : (Tables, FinishOutcome)
  {
    if !IsRunning(t, run) then (t, RunStateLost)
    else if !HoldsClaim(t, run, key) then (t, IdempotencyStateLost)
    else (Tables(t.runs[run := t.runs[run].(state := DONE, completedAt := now)],
                 t.keys[key := t.keys[key].(running := false, replayable := !result.retryable,
                                            result := Some(result),
                                            expiresAt := Some(Expiry(result, retention, now)))]),
          Finished)
  }

  function AbandonRun(t: Tables, run: RunId, key: RunKey, now: int): Tables {
    Tables(if IsRunning(t, run) then t.runs[run := t.runs[run].(state := ABANDONED, completedAt := now)]
           else t.runs,
           if HoldsClaim(t, run, key) then t.keys - {key} else t.keys)
  }

  /** Runner start-up: executions of the previous process become history. */
  function ResetRunning(t: Tables, now: int): Tables {
    Tables(map r | r in t.runs :: if t.runs[r].state == RUNNING
                                  then t.runs[r].(state := ABANDONED, completedAt := now) else t.runs[r],
           map k | k in t.keys && !t.keys[k].running :: t.keys[k])
  }

  function PurgeExpired(t: Tables, now: int): Tables {
    t.(keys := map k | k in t.keys && (t.keys[k].running || t.keys[k].expiresAt.None?
                                       || t.keys[k].expiresAt.value > now) :: t.keys[k])
  }

  /** The runs that still back a live cache entry. */
  function Cited(t: Tables, now: int): set<RunId> {
    set k | k in t.keys && !t.keys[k].running && t.keys[k].expiresAt.Some? && t.keys[k].expiresAt.value > now
      :: t.keys[k].run
  }

  function PurgeOldRuns(t: Tables, olderThan: int, now: int): Tables {
    if olderThan <= 0 then t
    else t.(runs := map r | r in t.runs && !(t.runs[r].state != RUNNING
                                             && t.runs[r].completedAt < now - olderThan
                                             && r !in Cited(t, now)) :: t.runs[r])
  }

  /** RUNNING claims and RUNNING runs are the same thing. */
  ghost predicate Consistent(t: Tables) {
    && (forall k :: k in t.keys && t.keys[k].running ==>
          IsRunning(t, t.keys[k].run) && t.runs[t.keys[k].run].key == k)
    && (forall r :: IsRunning(t, r) ==> HoldsClaim(t, r, t.runs[r].key))
  }

  /** At most one RUNNING run per key, and a claim is RUNNING exactly when the run
      it names is that one. */
  lemma OneRunningRun(t: Tables)
    requires Consistent(t)
    ensures forall r, s :: IsRunning(t, r) && IsRunning(t, s) && t.runs[r].key == t.runs[s].key ==> r == s
    ensures forall k :: k in t.keys ==>
              (t.keys[k].running <==> IsRunning(t, t.keys[k].run) && t.runs[t.keys[k].run].key == k)
  {
    forall r, s | IsRunning(t, r) && IsRunning(t, s) && t.runs[r].key == t.runs[s].key
      ensures r == s
    { assert HoldsClaim(t, r, t.runs[r].key) && HoldsClaim(t, s, t.runs[s].key); }
    forall k | k in t.keys && IsRunning(t, t.keys[k].run) && t.runs[t.keys[k].run].key == k
      ensures t.keys[k].running
    { assert HoldsClaim(t, t.keys[k].run, k); }
  }

  /** A holder whose run is no longer RUNNING can change nothing. */
  lemma DisplacedHolderIsHarmless(t: Tables, run: RunId, key: RunKey, result: RunResult, retention: int, now: int)
    requires Consistent(t) && !IsRunning(t, run)
    ensures FinishRun(t, run, key, result, retention, now) == (t, RunStateLost)
    ensures AbandonRun(t, run, key, now) == t
  {}

  /** A finish changes both rows or nothing, and succeeds for exactly the RUNNING run of
      its key. */
  lemma FinishIsAllOrNothing(t: Tables, run: RunId, key: RunKey, result: RunResult, retention: int, now: int)
    requires Consistent(t)
    ensures var (n, outcome) := FinishRun(t, run, key, result, retention, now);
            && (outcome != Finished ==> n == t)
            && (outcome == Finished <==> IsRunning(t, run) && t.runs[run].key == key)
            && Consistent(n)
  {}

  /** After a finish, what a request under the same key gets: refused if it is another
      request, the same result until that expires if it is not retryable, else a new run. */
  lemma RepliesAfterFinish(t: Tables, run: RunId, key: RunKey, result: RunResult, retention: int, now: int,
                           fingerprint: string, newRun: RunId, later: int)
    requires FinishRun(t, run, key, result, retention, now).1 == Finished && now <= later
    ensures BeginRun(FinishRun(t, run, key, result, retention, now).0, key, fingerprint, newRun, later).1
            == if fingerprint != t.keys[key].fingerprint then IdempotencyConflict
               else if !result.retryable && later < now + retention then Cached(result)
               else NewRun(newRun)
  {}

  /** Abandoning gives the key back to whoever asks next. */
  lemma AbandonFreesKey(t: Tables, run: RunId, key: RunKey, now: int, fingerprint: string, newRun: RunId)
    requires Consistent(t) && IsRunning(t, run) && t.runs[run].key == key
    ensures var n := AbandonRun(t, run, key, now);
            && Consistent(n) && !IsRunning(n, run)
            && BeginRun(n, key, fingerprint, newRun, now).1 == NewRun(newRun)
  {
    assert HoldsClaim(t, run, key);
  }

  /** After a restart every key is free or answers from its cache. */
  lemma ResetFreesKeys(t: Tables, now: int, key: RunKey, fingerprint: string, newRun: RunId)
    ensures BeginRun(ResetRunning(t, now), key, fingerprint, newRun, now).1 != RunInProgress
    ensures Consistent(ResetRunning(t, now))
  {}

  predicate Expired(t: Tables, key: RunKey, now: int) {
    key in t.keys && !t.keys[key].running && t.keys[key].expiresAt.Some? && t.keys[key].expiresAt.value <= now
  }

  /** Purging expired claims is visible to exactly one kind of request: a different one
      under an expired key, which is refused until the purge. */
  lemma PurgeIsVisible(t: Tables, key: RunKey, fingerprint: string, newRun: RunId, now: int)
    ensures BeginRun(PurgeExpired(t, now), key, fingerprint, newRun, now).1
            != BeginRun(t, key, fingerprint, newRun, now).1 <==>
            Expired(t, key, now) && t.keys[key].fingerprint != fingerprint
  {}

  /** Purging history is visible to nobody. */
  lemma HistoryPurgeIsInvisible(t: Tables, olderThan: int, now: int, key: RunKey, fingerprint: string, newRun: RunId,
                                run: RunId, result: RunResult, retention: int)
    ensures var n := PurgeOldRuns(t, olderThan, now);
            && BeginRun(n, key, fingerprint, newRun, now).1 == BeginRun(t, key, fingerprint, newRun, now).1
            && FinishRun(n, run, key, result, retention, now).1 == FinishRun(t, run, key, result, retention, now).1
  {}

  /** Before a claim a key answers with a new run; while it runs, the same request is told
      to wait and any other is refused. */
  lemma RepliesWhileRunning(t: Tables, key: RunKey, fingerprint: string, run: RunId, other: string, next: RunId,
                            now: int, later: int)
    requires key !in t.keys
    ensures var (n, outcome) := BeginRun(t, key, fingerprint, run, now);
            && outcome == NewRun(run) && IsRunning(n, run) && n.runs[run].key == key
            && BeginRun(n, key, other, next, later)
               == (n, if other == fingerprint then RunInProgress else IdempotencyConflict)
  {}

  /** History is kept until the run is older than the given age and its reply has expired:
      the run a finish leaves behind is dropped exactly then. */
  lemma FinishedRunIsKept(t: Tables, run: RunId, key: RunKey, result: RunResult, retention: int, finished: int,
                          olderThan: int, now: int)
    requires FinishRun(t, run, key, result, retention, finished).1 == Finished
    requires Consistent(t) && OwnClaimOnly(t, run, key)
    ensures var n := FinishRun(t, run, key, result, retention, finished).0;
            run !in PurgeOldRuns(n, olderThan, now).runs <==>
            && 0 < olderThan && finished + olderThan < now
            && (result.retryable ==> finished <= now) && (!result.retryable ==> finished + retention <= now)
  {
    var n := FinishRun(t, run, key, result, retention, finished).0;
    assert run in Cited(n, now) <==> n.keys[key].expiresAt.value > now;
  }

  /** No claim of another key names the run. */
  ghost predicate OwnClaimOnly(t: Tables, run: RunId, key: RunKey) {
    forall k :: k in t.keys && t.keys[k].run == run ==> k == key
  }

  /** A run given up, by its holder or by a restart, is history from then on: it is dropped
      exactly once it is older than the given age, if no reply names it. */
  lemma AbandonedRunIsKept(t: Tables, run: RunId, key: RunKey, abandoned: int, olderThan: int, now: int)
    requires IsRunning(t, run) && t.runs[run].key == key && OwnClaimOnly(t, run, key) && HoldsClaim(t, run, key)
    ensures var gone := 0 < olderThan && abandoned + olderThan < now;
            && (run !in PurgeOldRuns(AbandonRun(t, run, key, abandoned), olderThan, now).runs <==> gone)
            && (run !in PurgeOldRuns(ResetRunning(t, abandoned), olderThan, now).runs <==> gone)
            && run in PurgeOldRuns(t, olderThan, now).runs
  {}

  /** Other runs and other claims are left as they are. */
  lemma OthersUntouched(t: Tables, run: RunId, key: RunKey, result: RunResult, retention: int, now: int,
                        other: RunId, k: RunKey)
    requires other != run && k != key
    ensures var finished, abandoned := FinishRun(t, run, key, result, retention, now).0, AbandonRun(t, run, key, now);
            && (other in t.runs <==> other in finished.runs) && (other in t.runs <==> other in abandoned.runs)
            && (other in t.runs ==> finished.runs[other] == t.runs[other] == abandoned.runs[other])
            && (k in t.keys <==> k in finished.keys) && (k in t.keys <==> k in abandoned.keys)
            && (k in t.keys ==> finished.keys[k] == t.keys[k] == abandoned.keys[k])
  {}
}
