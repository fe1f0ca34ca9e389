# Managed Python Runner: verified model

Dafny 4.11 models of the parts of the repository whose correctness depends on many
steps, many callers or a format read by somebody else, with proofs of what those parts
promise. `dafny verify dfyconfig.toml` checks everything. No other file is needed.

## What is modelled

**Overlay filesystem** (`FileTree`, `Layering`, `Overlay`). User code in a worker sees
the container's files through a copy-on-write layer with tombstones. `Overlay` is the
layer object with its loops over path components; `Layering` is the layer as a value,
with the merged view it stands for and the invariant that keeps the view a tree;
`FileTree` is the plain tree it should be indistinguishable from. A call agrees with
the plain tree, in outcome and in visible result, exactly when `Layering.Faithful`
holds, and a whole run of calls does when each is `Safe`, a condition on the visible
tree and the container's files alone.

**Idempotent execution** (`RunTables`, `RunnerDb`, `Replay`). Each database transaction
is a function on two tables and a method that computes it. `Replay` interleaves
transactions of any number of requests, the purges, restarts and the passing of time,
and keeps the history of what was started, completed and replayed.

**Workers** (`Quota`, `Pool`, `Plane`, `Attributes`, `Invoke`). `Quota` and `Pool` are
the two objects as classes. `Plane` interleaves threads inside acquire, release, cancel
and the sweeps, one lock region or backend outcome a step, with retirement gates and a
backend whose sandboxes vanish by themselves and whose create calls, given up by their
caller, may still take effect; `PlaneAlone` has the runs of one thread that nobody
interferes with. `Invoke` is one `invoke` call over the real pool and
database objects, with every backend outcome, and with other requests, the purges, a
restart or a cancel between its steps.

**Retirement of a runtime** (`BuildTables`, `BuildStore`, `BuildRuns`, `BuildAlone`,
`Publish`, `Saga`, `Cleanup`). `BuildTables` has the Build service's transactions and
invariants, `BuildStore` the store object and `resolve`, `BuildRuns` all interleavings.
`Publish` interleaves Runner publications, which hold a runtime's lock over several
steps, with the lifecycle rows. `Saga` runs the cleanup coordinator, execution after
execution, against Build, Publish and the execution plane, while the clients of all three
go on; `Cleanup` is about how one execution ends, rolled back or left to itself.

**Contracts** (`Contract`, `Compiling`, `Adapter`, `RoundTrips`). The compiler from
operator contracts to plans and which contracts compile, what a contract means without
any plan, the two generated adapters, and what arrives of a value that one operator
sends to the next.

**Edge bundles** (`Sorting`, `Edge`). The deployment table and the numbered bundles of a
device, and publication with reuse of the latest bundle.

**Formats** (`Frames`, `Sse`, `SourceHash`). The framed protocol between agent and child
under any chunking, the event stream of build progress, and the bytes a source tree is
hashed from.

## Where the code departs from what one would expect

The model follows the code. Each of these is a lemma or a contract with its exact condition.

- Overlay, a directory standing where the container has a file: nothing can be created
  below it (`ENOTDIR`), it cannot be listed, and removing it fails and brings the deleted
  file back (`Layering.Faithful`, `Overlay.PathVirtualization.Listdir`,
  `Overlay.PathVirtualization.Rmdir`, `Overlay.PathVirtualization.Resurrection`).
- Overlay, `r+`, `truncate`, `chmod` or `utime` on a deleted file of the container: the
  call fails, but the file is visible again (`Overlay.PathVirtualization.OpenUpdate`).
- Overlay, `rename` onto an existing file is refused where POSIX overwrites it
  (`Layering.Faithful`, `Overlay.PathVirtualization.Move`).
- Overlay, a second `unlink` of a deleted container file, or an `unlink` of a container
  directory, succeeds (`Overlay.PathVirtualization.Unlink`); `w` and `replace` over a
  container directory succeed (`Overlay.PathVirtualization.OpenNew`,
  `Overlay.PathVirtualization.Move`); a path that never existed is listed as empty.
- Idempotency: another request under an expired key is refused until the reaper has
  purged the key, and no other request can tell (`RunTables.PurgeIsVisible`).
- Pool: an acquire in which the backend fails to destroy a discarded worker loses the
  popped candidate and the live discarded workers behind the failure: they stay alive and
  on the books, in no list. It loses nobody exactly if no such destruction fails, or there
  is no candidate and only dead workers are behind the first that does
  (`Pool.WorkerPool.Acquire`, `Pool.WorkerPool.LosesNobody`). `invoke` inherits exactly
  that (`Invoke.RunnerService.Invoke`).
- Pool: `reap` and `retire_runtime` lose the live workers behind the first failed
  destruction in the same way, and then return nothing (`Pool.WorkerPool.Reap`,
  `Pool.WorkerPool.RetireRuntime`, `Pool.LeavesNobody`).
- Runner: a safe status report rules out later sandboxes if and only if no create call of
  the runtime was given up undecided before (`Plane.DrainedExactly`); the cleanup
  coordinator inherits that (`Saga.DeletesOnlyUnused`, `Saga.SandboxCanStillCome`).
- Cleanup: a rollback reopens every gate its execution asked to close, also one that an
  earlier execution, still waiting for the Runner to drain, had closed
  (`Cleanup.RollbackReopens`, `Cleanup.CancelReopensBuild`).
- Cleanup: if Build fails to finalize after Harbor has deleted, and only then, the
  coordinator reopens all gates of a deleted artifact (`Saga.CancelAfterDelete`,
  `Saga.FailedFinalizeReopens`).
- Publish: after a finished retirement Build makes the environment anew on request, but
  its key can never be published again (`Publish.RetiredForever`).
- Publish: `begin_retirement` counts references by runtime key, by request key and by
  image. Only those guarded by the runtime key stay empty afterwards; a publication
  guarded by another key can bring back the others (`Publish.NewMention`,
  `Publish.SupersetMention`).
- Build: the reset of a retry whose environment became RETIRING since the retry read it,
  and nothing else, leaves the environment RETIRING and PENDING, which the coordinator
  takes for active build work although there is none (`BuildRuns.RetryRacesRetirement`,
  `BuildRuns.StuckIsReachable`).
- Build: a request that was bound to an environment now being retired is not bound again,
  so a resolve that finds or even builds what it wants leaves it without an answer
  (`BuildTables.BoundElsewhere`, `BuildStore.LifecycleBuildStore.Resolve`).
- Adapters: an operator parameter left unset reaches the NiFi adapter as property text.
  The two backends then pass the same value exactly for text defaults read as text and
  other defaults read as JSON (`Adapter.UnsetDefault`, `Adapter.NumberBecomesText`).
- Adapters: bytes returned under the json output codec compile and always fail
  (`Adapter.PayloadsEncode`).
- Both templates have lost the indentation of `return bytes(value)` in
  `_encode_payload`; the model takes the evident intent.

## Assumptions

One clock that does not go back. Transactions and lock regions are atomic. An
environment key stands for its spec and a runtime id for its image; the result about
source trees assumes that no two files at hand share a digest. JSON, UTF-8 and base64
conversions are parameters; what is assumed of JSON and UTF-8 is said where it is used
(`Adapter.JsonLaws`, `RoundTrips.Lawful`, both shown to be satisfiable). The Runner is one process. In `Saga`, one coordinator execution
runs at a time, an owner's call is one step whose reply is not lost, except that the
deletion is three (check, Harbor, finalize), only the coordinator begins, cancels or
finalizes retirements, and the backend's list of sandboxes is reliable.

## Model

| member | source | states |
|---|---|---|
| FileTree.PrefixIsDir | runner_engine/worker/path_virtualization.py:243-267 | in a tree every proper prefix of a path is a directory |
| FileTree.TruncatedExactly | runner_engine/worker/path_virtualization.py:681-683 | truncation gives the length asked for, keeps the bytes within it and adds zero bytes |
| Layering.ViewIsTree | runner_engine/worker/path_virtualization.py:213-241 | the merged view (overlay entry, else hidden by a tombstoned prefix, else the container's) is itself a tree |
| Layering.FreshView | runner_engine/worker/path_virtualization.py:225-241 | a fresh layer shows the container's tree |
| Layering.MaterializeKeepsView | runner_engine/worker/path_virtualization.py:243-267 | materialising the parents of a path changes nothing visible and gives the path an overlay parent |
| Layering.CopyUpKeepsView | runner_engine/worker/path_virtualization.py:309-317 | copying a file or a whole directory into the overlay changes nothing visible |
| Layering.InstallAssignsView | runner_engine/worker/path_virtualization.py:288-320 | creating or overwriting a prepared path assigns exactly that path in the view, although its tombstone is cleared |
| Layering.RemoveShrinksView | runner_engine/worker/path_virtualization.py:322-359 | deleting a path with nothing visible below it removes exactly that path |
| Layering.ClearedTombstone | runner_engine/worker/path_virtualization.py:319-320 | clearing a tombstone without creating the path brings back the container's node, and nothing else |
| Layering.MovedView | runner_engine/worker/path_virtualization.py:481-515 | a move assigns the target and removes the source, nothing else |
| Layering.SubtreeGoes | runner_engine/worker/path_virtualization.py:322-359 | unlinking a container directory takes all that is below it out of the view |
| Layering.MovedOverDir | runner_engine/worker/path_virtualization.py:499-515 | replacing a container directory shows the file in its place, with what is below the directory still visible |
| Layering.SafeIsFaithful | runner_engine/worker/path_virtualization.py:288-359 | a condition on the visible tree and the container alone is enough for agreement with the plain tree |
| Overlay.PathVirtualization.IsTombstoned | runner_engine/worker/path_virtualization.py:213-220 | the walk to "/" finds whether the path or an ancestor carries a tombstone |
| Overlay.PathVirtualization.ReadPath | runner_engine/worker/path_virtualization.py:233-241 | reading finds exactly what the view holds |
| Overlay.PathVirtualization.Listdir | runner_engine/worker/path_virtualization.py:553-586 | names and outcome in every case: the view's children, or nothing; ENOENT when hidden, ENOTDIR exactly at or below a file of either layer |
| Overlay.PathVirtualization.MaterializeExistingParents | runner_engine/worker/path_virtualization.py:243-267 | after the loop all proper prefixes are in the overlay and nothing else changed |
| Overlay.PathVirtualization.WritePath | runner_engine/worker/path_virtualization.py:288-320 | outcome in each case; on success the layer shows what it showed, but for the cleared tombstone |
| Overlay.PathVirtualization.OpenNew | runner_engine/worker/path_virtualization.py:361-383 | open for "w" or "x" assigns the file in the view, also over a container directory; every error case |
| Overlay.PathVirtualization.OpenAppend | runner_engine/worker/path_virtualization.py:361-383 | open for "a" extends what was visible |
| Overlay.PathVirtualization.OpenUpdate | runner_engine/worker/path_virtualization.py:361-383 | open for "r+" replaces a visible file; on a deleted container file it fails and uncovers it |
| Overlay.PathVirtualization.Mkdir | runner_engine/worker/path_virtualization.py:429-434 | adds exactly one directory to the view, or fails with the right error and no change |
| Overlay.PathVirtualization.Unlink | runner_engine/worker/path_virtualization.py:322-359 | removes exactly the file; a missing path or a container directory that is accepted, and what the view is then |
| Overlay.PathVirtualization.Rmdir | runner_engine/worker/path_virtualization.py:322-359 | removes exactly an empty directory; the failing case that brings a file back |
| Overlay.PathVirtualization.CopyUpSource | runner_engine/worker/path_virtualization.py:451-479 | a visible source ends up in the overlay with the view unchanged |
| Overlay.PathVirtualization.Move | runner_engine/worker/path_virtualization.py:481-515 | rename and replace move one file in the view, also over a container directory; every error case leaves the view |
| Overlay.PathVirtualization.Apply | runner_engine/worker/path_virtualization.py:288-515 | one call agrees with the plain POSIX tree, in outcome and view, if and only if it is Faithful |
| Overlay.PathVirtualization.Replay | runner_engine/worker/path_virtualization.py:213-586 | over every run of safe calls the view is the plain tree that started as the container's, which never changes |
| Overlay.PathVirtualization.Resurrection | runner_engine/worker/path_virtualization.py:338-359 | unlink, mkdir, rmdir of a container file ends with the file visible again |
| RunTables.OneRunningRun | runner_engine/state.py:388-648 | consistent tables have at most one RUNNING run per key, and a claim is RUNNING exactly when the run it names is that one |
| RunTables.DisplacedHolderIsHarmless | runner_engine/state.py:523-648 | finish and abandon of a run that is no longer RUNNING change nothing |
| RunTables.FinishIsAllOrNothing | runner_engine/state.py:523-607 | both rows change or neither, and it succeeds for exactly the RUNNING run of its key |
| RunTables.RepliesAfterFinish | runner_engine/state.py:411-468 | after a finish a different request is refused, the same one replayed until expiry if not retryable, else run anew |
| RunTables.AbandonFreesKey | runner_engine/state.py:609-648 | after the holder abandons, whoever asks next gets a new run |
| RunTables.ResetFreesKeys | runner_engine/state.py:388-409 | after a restart no key is in progress |
| RunTables.PurgeIsVisible | runner_engine/state.py:650-660 | purging changes a request's outcome if and only if its key was expired under another fingerprint |
| RunTables.HistoryPurgeIsInvisible | runner_engine/state.py:662-684 | purging old runs changes no outcome of begin or finish |
| RunTables.RepliesWhileRunning | runner_engine/state.py:411-520 | a free key gives a new run; until that ends the same request is told to wait and any other is refused, and nothing changes |
| RunTables.FinishedRunIsKept | runner_engine/state.py:662-684 | a finished run is dropped from history if and only if it is older than the retention and its reply has expired |
| RunTables.AbandonedRunIsKept | runner_engine/state.py:662-684 | a run given up, or abandoned by a restart, is dropped if and only if it is older than the retention; a RUNNING one never |
| RunTables.OthersUntouched | runner_engine/state.py:523-648 | finish and abandon change no other run and no other claim |
| Replay.StepKeeps | runner_engine/state.py:388-684 | every transaction keeps the tables consistent and the history sound |
| Replay.FromTheStart | runner_engine/state.py:411-684 | in every history: a replayed result is the non-retryable, unexpired result of an earlier run of the same key and fingerprint with no run started in between, and no run starts before a completion expires |
| Replay.DisplacedForever | runner_engine/state.py:388-648 | a run that stopped being RUNNING never runs again, so its holder's late finish or abandon has no effect, whatever happened since |
| Replay.RestartDisplaces | runner_engine/state.py:388-409 | after a restart no earlier run is RUNNING |
| Quota.GrantedExactly | runner_engine/quota.py:36-44 | granted if and only if both caps have room; a global refusal if and only if the live cap is reached, else the tenant's |
| Quota.ReserveTakesOne | runner_engine/quota.py:36-44 | a grant takes one from the tenant and from all, a refusal nothing, other tenants are untouched |
| Quota.ReleaseGivesOne | runner_engine/quota.py:46-55 | a release of something held gives one back to both, any other nothing |
| Quota.ReserveKeepsSane | runner_engine/quota.py:36-44 | tenant counts sum to the live count and both caps hold after a reservation |
| Quota.ReleaseKeepsSane | runner_engine/quota.py:46-55 | and after a release |
| Quota.ReleaseUndoesReserve | runner_engine/quota.py:36-55 | a release undoes a granted reservation exactly |
| Pool.PopSplits | runner_engine/pool.py:78-94 | popping keeps a prefix, hands out the good worker nearest the end and discards exactly the bad ones behind it |
| Pool.PopApart | runner_engine/pool.py:78-94 | kept, discarded and handed-out workers are all different |
| Pool.PopTakes | runner_engine/pool.py:78-97 | after a pop exactly the discarded workers and the candidate are no longer idle |
| Pool.SweepLeaves | runner_engine/pool.py:161-176 | after a sweep exactly the workers outside the swept set stay idle |
| Pool.DestroyKeepsBalance | runner_engine/pool.py:148-159 | destroying a live worker and releasing its reservation keep the accounts equal to the workers, and the release is not the ignored one |
| Pool.AdmitKeepsBalance | runner_engine/pool.py:113-124 | so do a granted reservation and the worker created for it |
| Pool.RoomGrants | runner_engine/quota.py:36-44 | while the accounts equal the workers, a reservation is granted if and only if fewer workers than the caps are alive, in all and of the tenant |
| Pool.WorkerPool.PopBucket | runner_engine/pool.py:78-94 | the pop loop computes that split |
| Pool.WorkerPool.Destroy | runner_engine/pool.py:148-159 | the backend is asked at most once per worker, and the reservation is released whether or not it raises |
| Pool.WorkerPool.DestroyAll | runner_engine/pool.py:99-100 | a destroy loop destroys up to and including the first failure and touches no other worker |
| Pool.WorkerPool.Release | runner_engine/pool.py:132-142 | a healthy reusable worker goes to the end of its own list, any other is destroyed |
| Pool.WorkerPool.Invalidate | runner_engine/pool.py:144-146 | the worker is unhealthy and destroyed, whatever the backend does |
| Pool.WorkerPool.Create | runner_engine/pool.py:113-130 | refused if and only if a cap is reached, said with the workers alive, and by which; failed if and only if there is room and the backend fails; else the new worker; on any failure workers and accounts are as before |
| Pool.WorkerPool.Reuse | runner_engine/pool.py:102-111 | a popped worker is made ready or destroyed |
| Pool.WorkerPool.Acquire | runner_engine/pool.py:73-130 | what is handed out has the requested key, is healthy, not destroyed and was not out; with nothing to discard first it succeeds if and only if the candidate can be prepared, or without one both caps have room and the backend serves; a discarded worker is destroyed if and only if it was or the loop got to it; the workers out afterwards are those before, the one handed out and exactly those lost; no other worker changes |
| Pool.WorkerPool.ReleaseThenAcquire | runner_engine/pool.py:48-142 | a worker given back is handed out next under its key if and only if it has not idled longer than the limit, can hold the release and can be prepared |
| Pool.WorkerPool.LosesNobody | runner_engine/pool.py:99-111 | an acquire loses nobody if and only if no destruction of a live discarded worker fails, or there is no candidate and only dead workers are behind the first failure |
| Pool.LeavesNobody | runner_engine/pool.py:178-179 | the same for a destroy loop alone |
| Pool.WorkerPool.Partition | runner_engine/pool.py:165-171 | the inner sweep loop keeps order and takes out exactly the given workers |
| Pool.WorkerPool.Reap | runner_engine/pool.py:161-181 | exactly the expired idle workers leave the lists; those up to the first failed destruction are destroyed, the live ones behind it are lost, and their number is returned if and only if no destruction fails |
| Pool.WorkerPool.RetireRuntime | runner_engine/lifecycle_runtime.py:83-96 | no worker of the runtime stays idle; those up to the first failed destruction are destroyed, the live ones behind it are lost, and exactly those retired are returned if and only if none fails |
| Pool.WorkerPool.RetireIdleWorker | runner_engine/lifecycle_runtime.py:98-120 | found if and only if idle; that worker alone goes and is destroyed, whether or not the backend fails |
| Attributes.FilterKeepsAllowed | runner_engine/service.py:25-36 | a filter keeps exactly the allowed names with their values, and filtering twice is filtering once |
| Attributes.SameToRelease | runner_engine/service.py:25-36 | filtered attributes are equal if and only if the originals agree on every allowed name |
| Attributes.Utf8SizeIsLeast | runner_engine/service.py:39-59 | the byte count is the least that UTF-8 can hold each character in, and adds up over texts |
| Attributes.Validate | runner_engine/service.py:39-59 | accepted if and only if within both limits, in whatever order the loop counts |
| Invoke.Timeout | runner_engine/service.py:231-234 | the time asked for if the profile allows it, else the nearest it allows |
| Invoke.IdentityIsTheRequest | runner_engine/service.py:62-77 | two requests have the same identity if and only if content, parameters, declared attributes and the time allowed agree; never under different releases |
| Invoke.UndeclaredAttributesDoNotMatter | runner_engine/service.py:207-235 | so changing attributes changes the identity if and only if a declared one changes |
| Invoke.RunnerService.ConflictExactly | runner_engine/state.py:440-444 | under a key claimed by an earlier request that the fingerprint tells apart from it, a request is refused as a conflict if and only if it differs |
| Invoke.RunnerService.WhereCallsMeet | runner_engine/pool.py:47-49 | two calls use one idle list if and only if tenant, runtime and profile are the same, and one idempotency key if and only if tenant, release and key are |
| Invoke.Displaceable | runner_engine/service.py:245-331 | whatever other callers, restarts and purges do, a claimed run stays RUNNING under its claim, or is ABANDONED and perhaps purged |
| Invoke.RunnerService.RunAndFinish | runner_engine/service.py:293-332 | a result is returned, filtered and stored, if and only if it is acceptable and the run was not displaced, and refused as lost if and only if only the latter fails |
| Invoke.RunnerService.GiveBack | runner_engine/service.py:334-361 | the worker is idle again if and only if the outcome, policy and its health allow, else destroyed |
| Invoke.RunnerService.Use | runner_engine/service.py:277-409 | with a worker in hand: it is idle again if and only if the run returned, was not cancelled and outcome, policy and health allow, else destroyed; the run is settled or still to be abandoned |
| Invoke.RunnerService.Invoke | runner_engine/service.py:188-409 | the reply by what the key's claim said: conflict for every request that differs from the claim's, wait, replay, else a new run; a new run returns if and only if its acquire succeeds, the id stays its own, the backend's result is acceptable and the run was not displaced; a claimed run ends DONE with the returned result or ABANDONED with its key free; a replay touches no table; the workers out afterwards are those before and exactly those its acquire loses |
| Invoke.RunnerService.Cancel | runner_engine/service.py:411-455 | only the caller's own call is touched; if the backend cannot be reached its worker is unhealthy and destroyed, and no other changes |
| Plane.StepKeepsCounted | runner_engine/lifecycle_runtime.py:26-46 | each acquire counter is the number of threads inside acquire for that runtime |
| Plane.StepKeepsConserved | runner_engine/pool.py:73-181 | every step keeps accounts equal to reservations in creation plus workers not yet released, in all and per tenant |
| Plane.StepKeepsAccounted | runner_engine/pool.py:148-159 | a destroyed worker's reservation is released or pending in exactly one destroy loop |
| Plane.StepKeepsExclusive | runner_engine/pool.py:73-142 | every step keeps each worker in at most one place: an idle list or one thread's hands |
| Plane.ReleaseIsNeverIgnored | runner_engine/quota.py:46-50 | the guard that silently returns is unreachable |
| Plane.EveryRun | runner_engine/pool.py:73-181 | the invariants hold after every interleaving |
| Plane.Conservation | runner_engine/quota.py:36-55 | reservations in creation and unreleased workers add up to the live count, within both caps |
| Plane.PoppedForRequest | runner_engine/pool.py:73-97 | the worker popped was idle under the request's tenant, runtime and profile, healthy and not destroyed |
| Plane.CheckedOutOnce | runner_engine/pool.py:73-142 | a checked-out worker has the requested key, is not idle and is in no other thread's hands |
| Plane.StepStaysDrained | runner_engine/lifecycle_runtime.py:26-46 | behind a gate with no acquire in flight a sandbox appears if and only if a lost create call takes effect, and no more calls are lost |
| Plane.DrainTheorem | runner_engine/lifecycle_runtime.py:239-323 | if a report read the row, then a zero counter, then an empty sandbox list, with any steps in between, then until the row is removed no acquire is in flight, and no sandbox exists if no create call was undecided at the listing |
| Plane.DrainedExactly | runner_engine/sandbox/opensandbox.py:184-191 | that condition is exact: with an undecided create call some continuation has a sandbox |
| PlaneAlone.WarmAcquire | runner_engine/pool.py:73-111 | a whole worker last in its list is handed out and only leaves the list |
| PlaneAlone.ColdAcquire | runner_engine/pool.py:113-130 | with no worker idle and room under both caps, a new sandbox becomes the caller's worker, on the tenant's account |
| PlaneAlone.RefusedAcquire | runner_engine/pool.py:113-115 | with a cap reached the caller gets nothing and nothing changes |
| PlaneAlone.FailedCreate | runner_engine/pool.py:116-130 | a failed create gives its reservation back exactly; a call given up undecided is outstanding from then on |
| PlaneAlone.AcquireLoopStep | runner_engine/pool.py:99-111 | a failed destruction of a live discarded worker drops the rest of the loop and the candidate |
| PlaneAlone.GivesBack | runner_engine/pool.py:132-142 | a whole worker given back is last in its own list |
| PlaneAlone.RidOf | runner_engine/pool.py:132-159 | a worker discarded, or given back broken or not for reuse, is destroyed and its reservation released once, whether or not the backend raises |
| PlaneAlone.CancelDestroys | runner_engine/service.py:411-455 | a cancel destroys the worker under its call |
| PlaneAlone.SweepStopsShort | runner_engine/pool.py:161-181 | when the first destruction of a sweep fails, the next worker is left alive in no list |
| PlaneAlone.OneWayOn | runner_engine/pool.py:102-130 | after its destroy loop an acquire can only prepare its candidate, or ask the quota, or give up |
| PlaneAlone.BackendSteps | runner_engine/sandbox/opensandbox.py:184-191 | a sandbox vanishes by itself; an outstanding create call takes effect once, under a fresh name, or never |
| BuildTables.OneActiveJob | build_service/lifecycle_service.py:109-139 | an environment is BUILDING or VERIFYING if and only if it has one active job, never has two, and has none unless ACTIVE |
| BuildTables.BindKeeps | build_service/lifecycle_service.py:141-170 | binding keeps every alias pointing to an environment that has what was asked for |
| BuildTables.ClaimKeeps | build_service/lifecycle_service.py:109-139 | a claim makes the only builder |
| BuildTables.MarkKeeps | build_service/store.py:273-330 | marking by the job that is active keeps status and job in step |
| BuildTables.ResetKeeps | build_service/store.py:226-244 | a retry reset keeps all invariants |
| BuildTables.FinalizeKeeps | build_service/lifecycle_service.py:254-277 | after finalizing no alias points to a RETIRED environment |
| BuildTables.AnswerCovers | build_service/lifecycle_service.py:52-63 | what a request is answered with is ACTIVE and has what it asked for |
| BuildTables.RetirementCondition | build_service/lifecycle_service.py:216-237 | retirement begins if and only if the environment is ACTIVE and READY or FAILED; the look at the jobs never decides |
| BuildTables.BoundForGood | build_service/lifecycle_service.py:141-170 | a bound request keeps its environment until that one is finalized |
| BuildTables.EligibleExactly | build_service/lifecycle_service.py:65-88 | what can be reused is READY with an image and ACTIVE, of the same base, Python, platform and policy, and its packages include those asked for with their versions |
| BuildTables.BoundElsewhere | build_service/store.py:215-224 | a bound request without an answer is bound to a RETIRING environment, and binding it again leaves it without one |
| BuildTables.RetirementUndone | build_service/lifecycle_service.py:216-252 | a begun retirement is undone without a trace; meanwhile nobody is answered with or bound to the environment, and other answers stay |
| BuildTables.RetryCanBuild | build_service/store.py:226-271 | a reset is for FAILED environments alone, and afterwards a build can be claimed if and only if the environment is ACTIVE |
| BuildStore.LifecycleBuildStore.FindSmallestSuperset | build_service/lifecycle_service.py:65-88 | found if and only if some READY and ACTIVE superset exists; it has the fewest packages, then is the oldest |
| BuildStore.LifecycleBuildStore.Build | build_service/service.py:297-413 | a claimed build ends READY with its image or FAILED, and the request's answer is returned |
| BuildStore.LifecycleBuildStore.Resolve | build_service/service.py:47-259 | an answered request keeps its answer, built if it was waiting; else with reuse and an eligible environment, one with the fewest packages and then the oldest is bound and no environment or job added; else its own environment is made, started over or refused, and built; there is an answer if and only if the request was not bound before to an environment being retired |
| BuildRuns.StepKeeps | build_service/service.py:47-413 | every step of resolves, retries, builders and retirements keeps the invariants |
| BuildRuns.Reachable | build_service/lifecycle_service.py:109-277 | alias soundness and the single-builder property in every reachable state |
| BuildRuns.ClientsLeaveRetiring | build_service/lifecycle_service.py:52-170 | whatever clients do, a RETIRING environment stays RETIRING and unbuilt |
| BuildRuns.RetryRacesRetirement | build_service/store.py:226-244 | a step leaves an environment RETIRING and PENDING if and only if it is the reset of a retry and the environment is FAILED and has become RETIRING |
| BuildRuns.StuckHasNoJob | build_service/lifecycle_service.py:109-139 | such an environment has no job and can get none |
| BuildRuns.StuckIsReachable | build_service/service.py:261-292 | a run from empty tables that gets there |
| BuildAlone.AnsweredAtOnce | build_service/service.py:89-162 | an undisturbed resolve of an answered request ends there, or is about to claim what waits for a build |
| BuildAlone.SupersetIsBound | build_service/service.py:164-203 | one that finds a superset binds it, if not bound before, and builds nothing |
| BuildAlone.ExactIsBound | build_service/service.py:205-222 | one that does not binds its own ACTIVE environment, new if need be, and claims it if it waits for a build |
| BuildAlone.RetiredStartsOver | build_service/lifecycle_service.py:90-189 | its own RETIRED environment is started over under its id, bound and claimed |
| BuildAlone.RetiringRefuses | build_service/lifecycle_service.py:90-107 | its own RETIRING environment ends it without a trace |
| BuildAlone.BuildsItsClaim | build_service/service.py:297-413 | a claimed build ends READY with the image or FAILED, its one new job tells the same, nothing else changes |
| BuildAlone.RetryClaims | build_service/service.py:261-292 | a retry makes a FAILED environment wait for a build and claims it; on any other it changes nothing |
| Publish.StepKeeps | publish_service/runtime_lifecycle.py:46-92 | a publication past its check holds the lock and no row of its key exists |
| Publish.NeverPublishedWhileRetiring | publish_service/lifecycle_service.py:122-190 | no variant becomes PUBLISHED under a key that has a lifecycle row |
| Publish.SafeUntilCancelled | publish_service/runtime_lifecycle.py:150-197 | after a safe begin the row and the absence of current references guarded by the key last until a cancel |
| Publish.NewMention | publish_service/runtime_lifecycle.py:94-148 | a reference by request key or image appears while the row stands if and only if a publication guarded by another key commits it |
| Publish.SupersetMention | publish_service/runtime_lifecycle.py:94-148 | a run from empty tables in which that happens after a safe begin |
| Publish.NewVersionSupersedes | publish_service/runtime_lifecycle.py:94-148 | a new version of a contract is the current one, and takes its operator's variants and no others out of the references |
| Publish.GivingUpUnlocks | publish_service/runtime_lifecycle.py:46-66 | a publication can be given up at any stage, which frees its lock and changes nothing else |
| Publish.CancelAnswers | publish_service/runtime_lifecycle.py:199-229 | a cancel answers what it did: the row goes if and only if it is there and not RETIRED, no other row changes |
| Publish.RowsThroughRetirement | publish_service/runtime_lifecycle.py:150-253 | begin then cancel leaves no trace; begin then finalize leaves a row that no begin or cancel takes back |
| Publish.RetiredForever | publish_service/runtime_lifecycle.py:199-253 | a RETIRED row is for ever, and nothing is published under its key again |
| Publish.PublishRuntimeLifecycle.AssertActive | publish_service/runtime_lifecycle.py:79-92 | passes if and only if there is no row |
| Publish.PublishRuntimeLifecycle.Begin | publish_service/runtime_lifecycle.py:150-183 | a RETIRED row stays RETIRED; the references counted, when it reports safe, and that no guarded reference exists then |
| Saga.StepKeeps | web/admin/cleanup.py:113-298 | what each stage of an execution has secured survives every step of coordinator and clients |
| Saga.ClientsAreFree | web/admin/cleanup.py:113-298 | between the coordinator's calls clients can do whatever their services let them, except to begin, cancel or finalize a retirement, and nothing else happens then |
| Saga.DeletesOnlyUnused | web/admin/cleanup.py:113-210 | from the start, whenever the artifact is deleted: Build is RETIRING without active job, the Publish row stands without current references, the Runner is gated with no acquire in flight, and no sandbox exists unless a create call was undecided when listed |
| Saga.SandboxCanStillCome | web/admin/cleanup.py:165-210 | before the deletion a sandbox can still come if and only if a create call is outstanding |
| Saga.CancelAfterDelete | web/admin/cleanup.py:252-333 | in an execution that deleted the artifact, the coordinator is about to cancel a gate if and only if Build failed to finalize after Harbor had deleted |
| Saga.FailedFinalizeReopens | build_service/lifecycle.py:119-125 | and then every gate started is up for cancelling |
| Cleanup.FailedCancel | web/admin/cleanup.py:300-333 | a cancel that an owner refuses changes no owner, and the rollback goes on |
| Cleanup.CancelReopensBuild | build_service/lifecycle_service.py:239-252 | a cancel makes a RETIRING environment ACTIVE and changes nothing else anywhere |
| Cleanup.CancelReopensPublish | publish_service/runtime_lifecycle.py:199-229 | a cancel removes the key's row unless it is RETIRED, and changes nothing else anywhere |
| Cleanup.CancelReopensRunner | runner_engine/lifecycle_runtime.py:325-338 | a cancel ungates the image unless it is finished, and changes nothing else anywhere |
| Cleanup.RollbackReopens | web/admin/cleanup.py:300-333 | a rollback whose cancels all succeed ends after as many cancels as gates were started, and then every one is open, with any client steps between and after |
| Cleanup.RolledBackExecution | web/admin/cleanup.py:113-333 | whatever makes an execution roll back and at whatever stage, if its cancels succeed every gate it had closed is open when it ends, among any client steps |
| Cleanup.DeletesExactly | web/admin/cleanup.py:113-210 | an execution nobody interferes with deletes the artifact if and only if the environment is built, not RETIRED and has the image, the row is not RETIRED, no current variant mentions key or image, and the Runner has not finished with the image, has no sandbox of it and nobody inside acquire |
| Cleanup.NothingRemains | web/admin/cleanup.py:119-165 | Build's refusal, and a reference found by Publish once both gates are open again, leave all three owners as they were |
| Cleanup.CheckDecides | build_service/lifecycle.py:91-112 | the deletion goes ahead if and only if the environment is RETIRING, built and has the image, else all three gates are up for cancelling; a RETIRED one skips it |
| Cleanup.Completes | web/admin/cleanup.py:197-245 | after Build's agreement an execution whose owners comply ends with the environment RETIRED and unbound, the row RETIRED and the image finished and gated; nothing else changes |
| Contract.CompileAll | operator_authoring/compiler.py:139-149 | the compilation loop computes the bindings and the shared parameter table |
| Contract.CompiledMatches | operator_authoring/compiler.py:101-149 | each compiled binding is the contract's, and the shared table only grows |
| Contract.PlanMatches | operator_authoring/compiler.py:208-278 | if a contract compiles, its plan has its bindings one by one, names are declared, required ones bound, and bindings sharing a parameter carry the plan entry's data |
| Compiling.BindingsCompile | operator_authoring/compiler.py:101-149 | bindings compile if and only if no two arguments disagree about a parameter they share; the table then says what they all ask for, and nothing else |
| Compiling.CompilesExactly | operator_authoring/compiler.py:208-278 | a contract compiles if and only if it matches the catalog's state, its target can be called this way, names exist and required ones are bound, no two arguments of constructor or method disagree, and its output codecs are allowed |
| Compiling.ParametersAreAsked | operator_authoring/compiler.py:101-149 | the plan's parameter is as each argument with its key asks, required if the contract or the callable requires it, shown under its name or else its key; there are no others |
| Adapter.BuildKwargsLoop | operator_authoring/adapter_generator.py:107-113 | the Runner adapter's loop computes the call arguments |
| Adapter.BuildKwargsNative | publish_service/backends/nifi_native.py:294-302 | the NiFi adapter's loop computes what the Runner's does on the same bytes and the non-null entries |
| Adapter.BackendsAgree | publish_service/backends/nifi_native.py:263-291 | NiFi resolves a binding, on bytes or a byte array, as the Runner does on the same bytes |
| Adapter.MeaningKept | operator_authoring/adapter_generator.py:76-113 | the compiled bindings build the arguments the contract means |
| Adapter.CallsDoNotGoWrong | operator_authoring/compiler.py:85-149 | on every input the adapter stops with its own error or calls with declared names only, no required one missing, and the contract's values (RoundTrips says what those are for given content), for constructor and method |
| Adapter.InputFilterIsInvisible | operator_authoring/compiler.py:257-262 | dropping attributes a plan does not declare never changes its calls |
| Adapter.OutputFilterIsIdentity | operator_authoring/compiler.py:263-277 | what an adapter emits passes the output filter whole |
| Adapter.PayloadsEncode | operator_authoring/adapter_generator.py:145-179 | for a contract that compiles: the result can be sent if and only if it is a constant of the contract, nothing, or what its codec sends, for each of the three output codecs |
| RoundTrips.BytesDecode | operator_authoring/adapter_generator.py:45-73 | content fails to decode if and only if the codec is text or json and it is not UTF-8, or json and it is not JSON; bytes stay, a stream has the same bytes |
| RoundTrips.TextDecodesAsItsBytes | operator_authoring/adapter_generator.py:45-73 | attributes and parameters read as their UTF-8 bytes would, except as a stream, which fails |
| RoundTrips.PayloadComesBack | operator_authoring/adapter_generator.py:165-179 | what is written under a codec reads under it as the value sent, if and only if the value is bytes under bytes, text under text or JSON under json |
| RoundTrips.PayloadBecomes | operator_authoring/adapter_generator.py:165-179 | what the other values that can be sent read as |
| RoundTrips.AllowedIsSendable | operator_authoring/compiler.py:167-205 | the compiler lets through exactly the constants that can be sent, and the codecs that can send something |
| RoundTrips.NextOperatorGets | operator_authoring/adapter_generator.py:190-240 | a value sent by one operator is the argument of the next under the same codec, on either backend |
| RoundTrips.NothingReturned | operator_authoring/adapter_generator.py:220-230 | returning None passes the content on if and only if the contract keeps the original, else empties it |
| RoundTrips.MetadataFails | operator_authoring/adapter_generator.py:182-187 | there is no metadata text for bytes that are not UTF-8 and values outside JSON, and for nothing else |
| RoundTrips.NextOperatorReads | operator_authoring/adapter_generator.py:182-235 | a metadata value sent by one operator is the argument of the next: text as text, UTF-8 bytes as bytes, other JSON as json |
| RoundTrips.AttributesAre | operator_authoring/adapter_generator.py:231-235 | attribute by attribute what is emitted, and that it is if and only if every value has a text |
| RoundTrips.NotGiven | operator_authoring/adapter_generator.py:76-104 | an argument is left out if and only if not given, optional and without default; missed if and only if not given, required and without default |
| RoundTrips.KwargsExist | operator_authoring/adapter_generator.py:107-113 | there is a call if and only if every binding resolves |
| RoundTrips.KwargsAre | operator_authoring/adapter_generator.py:107-113 | argument by argument a call has the values its bindings resolve to |
| Adapter.BackendsEmitTheSame | publish_service/backends/nifi_native.py:361-488 | for the same result both backends emit the same content and attributes, or both fail |
| Adapter.UnsetDefault | publish_service/backends/nifi_native.py:397-437 | with a parameter unset the backends agree if and only if a text default is read as text or another default as JSON |
| Adapter.NumberBecomesText | publish_service/backends/nifi_native.py:397-437 | a number read as text: the Runner passes the number, NiFi its digits |
| Adapter.Interpreter.Process | operator_authoring/adapter_generator.py:190-245 | the user's code runs in the root, with the root first in its import path, exactly when the arguments could be built; the import path is restored on every way out; the directory too, or, if changing back fails, it is where the attempt left it; success exactly when no stage failed |
| Sorting.SortedEqual | publish_service/service.py:1003 | sorted copies are equal if and only if the contents are, for any total order |
| Edge.SigsOrdered | publish_service/service.py:994-1003 | the order of member signatures is total |
| Edge.SameMembers | publish_service/service.py:990-1003 | true if and only if the same signatures occur equally often |
| Edge.CommitKeeps | publish_service/store.py:642-799 | revisions stay 1 to n, each once, and the newest bundle's members are the deployment table |
| Edge.EdgeStore.NextRevision | publish_service/store.py:606-640 | one more than the highest revision, or 1 |
| Edge.EdgeStore.Others | publish_service/service.py:1093-1098 | the rows of the other operators, and the operator's own if any |
| Edge.EdgeStore.TryReuse | publish_service/service.py:1107-1154 | reuses if and only if the operator is deployed as it is, the platform is the same and the files are intact |
| Edge.EdgeStore.PublishNative | publish_service/service.py:1086-1249 | the exact condition of reuse; either way the latest bundle has the members a full rebuild would have; other devices are untouched |
| Frames.DecodeAccepts | runner_engine/worker/agent.py:179-196 | exactly the encodings within the limit are accepted, and give back the payload |
| Frames.FramesApart | runner_engine/worker/agent.py:179-180 | no frame is a prefix of another |
| Frames.BigEndianOrders | runner_engine/worker/agent.py:179-180 | lengths compare as their four bytes do from the left: the most significant comes first |
| Frames.ReadExact | runner_engine/worker/child.py:86-95 | for every chunking, exactly the next bytes, or an error if there are fewer |
| Frames.ReadFrame | runner_engine/worker/child.py:98-110 | for every chunking, accepts what the agent's decoder accepts, with the same payload, and else its error, with a length mismatch told apart |
| Frames.WriteAll | runner_engine/worker/agent.py:170-176 | for every partial write, succeeds if and only if all of the data is written, else a prefix is; never fails on a descriptor that takes something each time |
| Frames.WriteFrame | runner_engine/worker/child.py:122-126 | refused if and only if over the limit, with nothing written; else a whole frame unless the pipe breaks |
| Frames.SendAndReceive | runner_engine/worker/child.py:86-126 | a sent frame is received as its payload, however both sides are cut up, if within the receiver's limit and refused as too large if not; it is sent if and only if within the sender's, unless the pipe breaks |
| Frames.BoundedReader | runner_engine/worker/agent.py:112-167 | keeps the first cap bytes and signals overflow if and only if there are more |
| Sse.ReadSse | publish_service/build_client.py:38-62 | the line loop computes the reading of the lines |
| Sse.FieldLines | publish_service/build_client.py:50-58 | a data line adds a line of data, also an empty one; an event line sets the name, without one to "message" |
| Sse.JoinedLines | publish_service/build_client.py:38-62 | the data of an event with several data lines is those lines with a line break between two |
| Sse.ParseInvertsPrint | build_service/progress_routes.py:33-40 | reading any mixture of clean events and keep-alives gives the events, in order |
| Sse.OneEventComesBack | publish_service/build_client.py:38-62 | an event without line breaks comes back if and only if it is clean |
| Sse.JsonObjectsAreClean | build_service/progress_routes.py:33-40 | the events the server prints are clean |
| SourceHash.DecodeInverts | operator_authoring/ast_scanner.py:73-82 | the bytes fed to the hash determine the list of paths and digests |
| SourceHash.EncodeInverts | operator_authoring/ast_scanner.py:73-82 | and exactly such byte strings are decoded |
| SourceHash.Feed | runner_engine/publisher.py:44-51 | the loop feeds that encoding |
| SourceHash.SameHashSameFiles | operator_authoring/ast_scanner.py:73-82 | equal bytes mean equal files, unless two contents at hand share a digest |
| SourceHash.CollisionGoesUnnoticed | runner_engine/publisher.py:44-51 | two contents give the same bytes if and only if they share a digest |

## Left out

- Overlay: symbolic links, directory rename, `dir_fd`, bytes paths, relative paths and double leading slashes; file modes and times; listings are sets, without order.
- Runner: leases, `creation_slot`, which only delays, sandbox expiry times, and `reset_after_restart`, which starts a new plane.
- Runner: `_result_to_dict` and `_result_from_dict`, a JSON and base64 round trip; audit columns of the run history.
- Invoke.RunnerService.Invoke: does not say that an `_active` entry survives until its own call ends, because the `finally` removes entries by id and can remove another call's; the codes of acquire errors are not told apart.
- Plane.DrainTheorem: the active and idle parts of a status report are not used; they are not needed for it, and the report's other fields carry no promise. Idle time and installed releases only enter as an arbitrary set of workers not to hand out.
- RunnerLifecycleController and CleanupCoordinator appear as steps of `Plane` and `Saga`, not as objects; cleanup requests and their step log are not modelled, nor is convergence of retries after PARTIAL.
- Build: image building, verification and Harbor are outcomes; dependency locking and the parsing of lock files are not modelled (a spec carries its packages); error texts and progress events.
- Publish: job rows and other backends' variants; operators are their names.
- Database and lifecycle store methods of `RunnerDb`, `BuildStore`, `Quota` and `Publish` are proved equal to the transaction functions; the table names the lemmas about those functions.
- Compiler: analysis of user code, return annotations that forbid a bytes payload; which of several failed checks is reported.
- Edge: dependency resolution and archive contents; hashes of existing files enter as one fact, intact or not.
- Sse: replacement of malformed UTF-8; the queue between build thread and stream.
- HTTP routes, authentication, user interfaces, schema creation and migration, process control.
