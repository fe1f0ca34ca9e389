/** The Runner's durable state object: each method is one transaction. */
module RunnerDb {
  import opened Wrappers
  import opened RunTables

  class RunnerDB {
    var runs: map<RunId, Run>
    var keys: map<RunKey, Claim>

    function Contents(): Tables reads this {
      Tables(runs, keys)
    }

    constructor ()
      ensures Contents() == Tables(map[], map[])
    {
      runs := map[];
      keys := map[];
    }

    method Begin(key: RunKey, fingerprint: string, newRun: RunId, now: int) returns (outcome: BeginOutcome)
      modifies this
      ensures (Contents(), outcome) == BeginRun(old(Contents()), key, fingerprint, newRun, now)
    {
      if key in keys {
        var row := keys[key];
        if row.fingerprint != fingerprint { return IdempotencyConflict; }
        if row.running { return RunInProgress; }
        if row.replayable && row.result.Some? && row.expiresAt.Some? && row.expiresAt.value > now {
          return Cached(row.result.value);
        }
      }
      keys := keys[key := Claim(fingerprint, true, newRun, false, None, None)];
      runs := runs[newRun := Run(key, fingerprint, RUNNING, 0)];
      outcome := NewRun(newRun);
    }

    method Finish(run: RunId, key: RunKey, result: RunResult, retention: int, now: int)
      returns (outcome: FinishOutcome)
      modifies this
      ensures (Contents(), outcome) == FinishRun(old(Contents()), run, key, result, retention, now)
    {
      var replayable := !result.retryable;
      var expiresAt := if replayable then now + retention else now;
      if run !in runs || runs[run].state != RUNNING { return RunStateLost; }
      var before := runs;
      runs := runs[run := runs[run].(state := DONE, completedAt := now)];
      if key !in keys || keys[key].run != run || !keys[key].running {
        runs := before;  // rolled back
        return IdempotencyStateLost;
      }
      keys := keys[key := keys[key].(running := false, replayable := replayable,
                                     result := Some(result), expiresAt := Some(expiresAt))];
      outcome := Finished;
    }

    method Abandon(run: RunId, key: RunKey, now: int)
      modifies this
      ensures Contents() == AbandonRun(old(Contents()), run, key, now)
    {
      if run in runs && runs[run].state == RUNNING {
        runs := runs[run := runs[run].(state := ABANDONED, completedAt := now)];
      }
      if key in keys && keys[key].run == run && keys[key].running {
        keys := keys - {key};
      }
    }

    method Reset(now: int) returns (abandoned: nat)
      modifies this
      ensures Contents() == ResetRunning(old(Contents()), now)
      ensures abandoned == |set r | r in old(runs) && old(runs)[r].state == RUNNING|
    {
      var stale := set r | r in runs && runs[r].state == RUNNING;
      abandoned := |stale|;
      runs := map r | r in runs ::
        if r in stale then runs[r].(state := ABANDONED, completedAt := now) else runs[r];
      keys := map k | k in keys && !keys[k].running :: keys[k];
    }

    method PurgeExpiredIdempotency(now: int) returns (purged: nat)
      modifies this
      ensures Contents() == PurgeExpired(old(Contents()), now)
      ensures purged == |old(keys).Keys - keys.Keys|
    {
      var expired := set k | k in keys && !keys[k].running && keys[k].expiresAt.Some?
                             && keys[k].expiresAt.value <= now;
      purged := |expired|;
      assert keys.Keys - (keys - expired).Keys == expired;
      keys := keys - expired;
    }

    method PurgeOld(olderThan: int, now: int) returns (purged: nat)
      modifies this
      ensures Contents() == PurgeOldRuns(old(Contents()), olderThan, now)
      ensures purged == |old(runs).Keys - runs.Keys|
    {
      if olderThan <= 0 { return 0; }
      var cited := Cited(Contents(), now);
      var kept := map r | r in runs && (runs[r].state == RUNNING || runs[r].completedAt >= now - olderThan
                                        || r in cited) :: runs[r];
      purged := |runs.Keys - kept.Keys|;
      runs := kept;
    }
  }
}
