/** Retirement of a runtime across Build, Publish and Runner: one coordinator execution
    after another, each owner call one step, with all owners' clients in between. */
module Saga {
  import opened Wrappers
  import BuildTables
  import BuildRuns
  import Publish
  import Plane
  import Quota

  datatype Job = Job(env: BuildTables.EnvId, key: Publish.Key, image: string, retired: bool)
  datatype Owner = Build | Publishing | Runner

  /** Where the coordinator is in its execution. */
  datatype Pc =
    | Resting
    | Planned(job: Job)
    | BuildGated(job: Job)
    | PublishGated(job: Job)     // Publish reported safe
    | RunnerGated(job: Job)
    | CounterRead(job: Job)      // the row stands and no acquire was in flight
    | Drained(job: Job)          // and the backend listed no sandbox: safe to delete
    | Deleting(job: Job)         // Build checked the environment, Harbor is next
    | HarborDone(job: Job)       // Build has yet to finalize
    | ArtifactGone(job: Job)
    | RunnerDone(job: Job)
    | RollingBack(job: Job, gates: seq<Owner>)

  /** `finished`: images whose Runner row is RETIRED. The rest is about the current
      execution: it has deleted the artifact; Build failed to finalize after that; and
      a create call of the image was lost and undecided when the sandboxes were listed. */
  datatype State = State(build: BuildRuns.State, publish: Publish.State, runner: Plane.State,
                         finished: set<string>, pc: Pc, deleted: bool, unfinished: bool, undecided: bool)

  datatype Step =
    | BuildClient(b: BuildRuns.Step)
    | PublishClient(p: Publish.Step)
    | RunnerClient(r: Plane.Step)
    | Plan(env: BuildTables.EnvId, image: string)
    | BuildRetire
    | PublishBegin
    | RunnerBegin
    | ReadCounter
    | ReadList
    | Wait                      // some other part of the report is not safe
    | CheckArtifact
    | HarborDelete
    | BuildFinalize
    | SkipDelete                // the environment was RETIRED before
    | RunnerFinalize
    | PublishFinalize
    | Fail                      // an owner refuses or cannot be reached
    | Cancel(ok: bool)          // next gate of the rollback; errors are only recorded

  predicate PublishByClient(p: Publish.Step) {
    !p.Begin? && !p.CancelRow? && !p.FinalizeRow?
  }

  predicate RunnerByClient(r: Plane.Step) { !r.Gate? && !r.Ungate? }

  ghost predicate Enabled(s: State, step: Step) {
    match step
    case BuildClient(b) => BuildRuns.ByClient(b) && BuildRuns.Enabled(s.build, b)
    case PublishClient(p) => PublishByClient(p) && Publish.Enabled(s.publish, p)
    case RunnerClient(r) => RunnerByClient(r) && Plane.Enabled(s.runner, r)
    case Plan(env, _) => s.pc.Resting? && env in s.build.tables.envs
    case BuildRetire => s.pc.Planned? && s.pc.job.env in s.build.tables.envs
    case PublishBegin => s.pc.BuildGated? && Publish.Enabled(s.publish, Publish.Begin(s.pc.job.key, s.pc.job.image))
    case RunnerBegin => s.pc.PublishGated?
    case ReadCounter => s.pc.RunnerGated?
    case ReadList => s.pc.CounterRead?
    case Wait => s.pc.RunnerGated? || s.pc.CounterRead? || s.pc.Drained?
    case CheckArtifact => s.pc.Drained? && !s.pc.job.retired && s.pc.job.env in s.build.tables.envs
    case HarborDelete => s.pc.Deleting?
    case BuildFinalize => s.pc.HarborDone?
    case SkipDelete => s.pc.Drained? && s.pc.job.retired
    case RunnerFinalize => s.pc.ArtifactGone?
    case PublishFinalize => s.pc.RunnerDone? && Publish.Enabled(s.publish, Publish.FinalizeRow(s.pc.job.key))
    case Fail => !s.pc.Resting? && !s.pc.RollingBack?
    case Cancel(_) =>
      s.pc.RollingBack? && s.pc.gates != []
      && (s.pc.gates[0] == Publishing ==> Publish.Enabled(s.publish, Publish.CancelRow(s.pc.job.key)))
  }

  /** Clients can do at any time whatever their service lets them, except to begin, cancel or
      finalize a retirement, and that is all that happens then. */
  lemma ClientsAreFree(s: State, b: BuildRuns.Step, p: Publish.Step, r: Plane.Step)
    ensures Enabled(s, BuildClient(b)) || b.Retire? || b.Cancel? || b.Finalize? <==>
            BuildRuns.Enabled(s.build, b) || b.Retire? || b.Cancel? || b.Finalize?
    ensures Enabled(s, PublishClient(p)) || p.Begin? || p.CancelRow? || p.FinalizeRow? <==>
            Publish.Enabled(s.publish, p) || p.Begin? || p.CancelRow? || p.FinalizeRow?
    ensures Enabled(s, RunnerClient(r)) || r.Gate? || r.Ungate? <==>
            Plane.Enabled(s.runner, r) || r.Gate? || r.Ungate?
    ensures Enabled(s, BuildClient(b)) ==>
              BuildRuns.Enabled(s.build, b) && Next(s, BuildClient(b)) == s.(build := BuildRuns.Next(s.build, b))
    ensures Enabled(s, PublishClient(p)) ==>
              Publish.Enabled(s.publish, p) && Next(s, PublishClient(p)) == s.(publish := Publish.Next(s.publish, p))
    ensures Enabled(s, RunnerClient(r)) ==>
              Plane.Enabled(s.runner, r) && Next(s, RunnerClient(r)) == s.(runner := Plane.Next(s.runner, r))
    ensures Enabled(s, Wait) ==> Next(s, Wait) == s.(pc := Resting)
  {
    hide BuildRuns.Enabled, Publish.Enabled, Plane.Enabled, BuildRuns.Next, Publish.Next, Plane.Next;
  }

  /** What the coordinator has gated so far, in the order it is undone. */
  function GatesStarted(pc: Pc): seq<Owner> {
    match pc
    case BuildGated(_) => [Build]
    case PublishGated(_) => [Publishing, Build]
    case RunnerGated(_) => [Runner, Publishing, Build]
    case CounterRead(_) => [Runner, Publishing, Build]
    case Drained(_) => [Runner, Publishing, Build]
    case Deleting(_) => [Runner, Publishing, Build]
    case HarborDone(_) => [Runner, Publishing, Build]
    case _ => []
  }

  function Undo(job: Job, gates: seq<Owner>): Pc {
    if gates == [] then Resting else RollingBack(job, gates)
  }

  /** Build retires unless it is blocked; an environment RETIRING or RETIRED stays so. */
  function Retired(t: BuildTables.Tables, env: BuildTables.EnvId): Option<BuildTables.Tables>
    requires env in t.envs
  {
    if t.envs[env].status.PENDING? || BuildTables.Working(t.envs[env].status) || BuildTables.ActiveJobs(t, env) != {}
    then None
    else if t.envs[env].lifecycle.ACTIVE? then BuildTables.BeginRetirement(t, env)
    else Some(t)
  }

  /** The checks of delete_artifact before it calls Harbor. */
  predicate MayDelete(t: BuildTables.Tables, job: Job)
    requires job.env in t.envs
  {
    var env := t.envs[job.env];
    && env.lifecycle.RETIRING? && !env.status.PENDING? && !BuildTables.Working(env.status)
    && BuildTables.ActiveJobs(t, job.env) == {} && env.image == Some(job.image)
  }

  predicate NoSandbox(r: Plane.State, image: string) { Plane.NoSandbox(r, image) }

  function Next(s: State, step: Step): State
    requires Enabled(s, step)
  {
    match step
    case BuildClient(b) => s.(build := BuildRuns.Next(s.build, b))
    case PublishClient(p) => s.(publish := Publish.Next(s.publish, p))
    case RunnerClient(r) => s.(runner := Plane.Next(s.runner, r))
    case Plan(env, image) =>
      s.(pc := Planned(Job(env, s.build.tables.envs[env].spec, image, false)),
         deleted := false, unfinished := false, undecided := false)
    case BuildRetire =>
      var job := s.pc.job;
      var after := Retired(s.build.tables, job.env);
      if after == None then s.(pc := Resting)
      else
        var already := s.build.tables.envs[job.env].lifecycle.RETIRED?;
        s.(build := s.build.(tables := after.value), pc := BuildGated(job.(retired := already)))
    case PublishBegin =>
      var job := s.pc.job;
      var publish := Publish.Next(s.publish, Publish.Begin(job.key, job.image));
      s.(publish := publish,
         pc := if Publish.Safe(publish, job.key, job.image) then PublishGated(job)
               else RollingBack(job, [Publishing, Build]))
    case RunnerBegin =>
      var job := s.pc.job;
      s.(runner := Plane.Next(s.runner, Plane.Gate(job.image)),
         pc := if job.image in s.finished then Resting else RunnerGated(job))
    case ReadCounter =>
      s.(pc := if Plane.CountOf(s.runner, s.pc.job.image) == 0 then CounterRead(s.pc.job) else Resting)
    case ReadList =>
      s.(pc := if NoSandbox(s.runner, s.pc.job.image) then Drained(s.pc.job) else Resting,
         undecided := s.pc.job.image in s.runner.lost)
    case Wait => s.(pc := Resting)
    case CheckArtifact =>
      s.(pc := if MayDelete(s.build.tables, s.pc.job) then Deleting(s.pc.job)
               else RollingBack(s.pc.job, GatesStarted(s.pc)))
    case HarborDelete => s.(pc := HarborDone(s.pc.job), deleted := true)
    case BuildFinalize =>
      s.(build := s.build.(tables := BuildTables.FinalizeRetirement(s.build.tables, s.pc.job.env)),
         pc := ArtifactGone(s.pc.job))
    case SkipDelete => s.(pc := ArtifactGone(s.pc.job))
    case RunnerFinalize => s.(finished := s.finished + {s.pc.job.image}, pc := RunnerDone(s.pc.job))
    case PublishFinalize => s.(publish := Publish.Next(s.publish, Publish.FinalizeRow(s.pc.job.key)), pc := Resting)
    case Fail =>
      // artifact_deleted is only set once Build has finalized
      s.(pc := Undo(s.pc.job, GatesStarted(s.pc)), unfinished := s.pc.HarborDone?)
    case Cancel(ok) => Cancelled(s, ok)
  }

  function Cancelled(s: State, ok: bool): State
    requires Enabled(s, Cancel(ok))
  {
    var job, gates := s.pc.job, s.pc.gates;
    var n := s.(pc := Undo(job, gates[1..]));
    if !ok then n
    else match gates[0]
      case Build =>
        var tables := BuildRuns.Or(BuildTables.CancelRetirement(s.build.tables, job.env), s.build.tables);
        n.(build := s.build.(tables := tables))
      case Publishing => n.(publish := Publish.Next(s.publish, Publish.CancelRow(job.key)))
      case Runner =>
        if job.image in s.finished then n else n.(runner := Plane.Next(s.runner, Plane.Ungate(job.image)))
  }

  function Execute(s: State, steps: seq<Step>): State
    requires Legal(s, steps)
    decreases |steps|
  {
    if steps == [] then s else Execute(Next(s, steps[0]), steps[1..])
  }

  ghost predicate Legal(s: State, steps: seq<Step>)
    decreases |steps|
  {
    steps == [] || (Enabled(s, steps[0]) && Legal(Next(s, steps[0]), steps[1..]))
  }

  // ----- what holds where

  predicate BuildHeld(s: State, job: Job) {
    job.env in s.build.tables.envs
    && (!job.retired ==> s.build.tables.envs[job.env].lifecycle.RETIRING?)
  }

  predicate PublishHeld(s: State, job: Job) {
    job.key in s.publish.rows && Publish.References(s.publish, job.key) == {}
  }

  predicate AfterBuild(pc: Pc) { pc.BuildGated? || AfterPublish(pc) }
  predicate AfterPublish(pc: Pc) { pc.PublishGated? || AfterRunner(pc) }
  predicate AfterRunner(pc: Pc) { pc.RunnerGated? || AfterCounter(pc) }
  predicate AfterCounter(pc: Pc) { pc.CounterRead? || AfterList(pc) }
  predicate AfterList(pc: Pc) { pc.Drained? || pc.Deleting? }

  predicate Progress(s: State) {
    && (AfterBuild(s.pc) ==> BuildHeld(s, s.pc.job))
    && (AfterPublish(s.pc) ==> PublishHeld(s, s.pc.job))
    && (AfterRunner(s.pc) ==> s.pc.job.image in s.runner.gates)
    && (AfterCounter(s.pc) ==> Plane.Drained(s.runner, s.pc.job.image))
    && (AfterList(s.pc) && !s.undecided ==>
          NoSandbox(s.runner, s.pc.job.image) && s.pc.job.image !in s.runner.lost)
    && (s.pc.Deleting? ==> !s.pc.job.retired)
    && Flags(s)
  }

  /** What the history says at each stage. */
  predicate Flags(s: State) {
    && (s.pc.HarborDone? ==> s.deleted)
    && (s.pc.RollingBack? ==> s.pc.gates != [] && (s.deleted <==> s.unfinished))
    && (!s.pc.RollingBack? && !s.pc.Resting? ==> !s.unfinished)
    && (AfterBuild(s.pc) || s.pc.Planned? ==> !s.deleted)
  }

  ghost predicate Inv(s: State) {
    BuildRuns.Good(s.build) && Publish.Inv(s.publish) && Plane.Inv(s.runner) && Progress(s)
  }

  lemma BuildClientKeeps(s: State, b: BuildRuns.Step)
    requires Inv(s) && Enabled(s, BuildClient(b))
    ensures Inv(Next(s, BuildClient(b)))
  {
    hide BuildRuns.Good, Publish.Inv, Plane.Inv, Plane.Drained, Plane.NoSandbox;
    BuildRuns.StepKeeps(s.build, b);
    if AfterBuild(s.pc) && !s.pc.job.retired { BuildRuns.ClientsLeaveRetiring(s.build, b, s.pc.job.env); }
    BuildRuns.SpecsStay(s.build, b);
    hide BuildRuns.Next;
  }

  lemma PublishClientKeeps(s: State, p: Publish.Step)
    requires Inv(s) && Enabled(s, PublishClient(p))
    ensures Inv(Next(s, PublishClient(p)))
  {
    hide BuildRuns.Good, Publish.Inv, Plane.Inv, Plane.Drained, Plane.NoSandbox, Publish.Next, Publish.References;
    Publish.StepKeeps(s.publish, p);
    if AfterPublish(s.pc) { Publish.StepKeepsUnreferenced(s.publish, p, s.pc.job.key); }
  }

  lemma GatesKept(r: Plane.State, step: Plane.Step)
    requires Plane.Enabled(r, step) && RunnerByClient(step)
    ensures Plane.Next(r, step).gates == r.gates
  {}

  /** Once drained, decided and empty it stays so. */
  lemma EmptyKept(r: Plane.State, step: Plane.Step, image: string)
    requires Plane.Inv(r) && Plane.Enabled(r, step) && RunnerByClient(step) && Plane.Drained(r, image)
    ensures var n := Plane.Next(r, step);
            && Plane.Drained(n, image)
            && (NoSandbox(r, image) && image !in r.lost ==> NoSandbox(n, image) && image !in n.lost)
  {
    hide Plane.Inv, Plane.Next, Plane.Drained, Plane.NoSandbox;
    Plane.StepStaysDrained(r, step, image);
    LateIsLost(r, step);
  }

  lemma LateIsLost(r: Plane.State, step: Plane.Step)
    requires Plane.Enabled(r, step)
    ensures step.Late? ==> step.runtime in r.lost
  {}

  lemma RunnerClientKeeps(s: State, r: Plane.Step)
    requires Inv(s) && Enabled(s, RunnerClient(r))
    ensures Inv(Next(s, RunnerClient(r)))
  {
    hide BuildRuns.Good, Publish.Inv, Plane.Inv, Publish.References;
    hide Plane.NoSandbox, Plane.Drained, Plane.Next, Plane.Enabled;
    Plane.StepKeeps(s.runner, r);
    GatesKept(s.runner, r);
    if AfterCounter(s.pc) { EmptyKept(s.runner, r, s.pc.job.image); }
  }

  lemma BuildRetireKeeps(s: State)
    requires Inv(s) && Enabled(s, BuildRetire)
    ensures Inv(Next(s, BuildRetire))
  {
    hide BuildRuns.Good, Publish.Inv, Plane.Inv, Plane.Drained, Plane.NoSandbox, BuildTables.ActiveJobs;
    var t, env := s.build.tables, s.pc.job.env;
    if Retired(t, env).Some? && t.envs[env].lifecycle.ACTIVE? {
      BuildRuns.StepKeeps(s.build, BuildRuns.Retire(env));
    }
  }

  lemma BuildFinalizeKeeps(s: State)
    requires Inv(s) && Enabled(s, BuildFinalize)
    ensures Inv(Next(s, BuildFinalize))
  {
    hide BuildRuns.Good, Publish.Inv, Plane.Inv, Plane.Drained, Plane.NoSandbox;
    BuildRuns.StepKeeps(s.build, BuildRuns.Finalize(s.pc.job.env));
  }

  lemma PublishStepKeeps(s: State, step: Step)
    requires Inv(s) && Enabled(s, step) && (step.PublishBegin? || step.PublishFinalize?)
    ensures Inv(Next(s, step))
  {
    hide BuildRuns.Good, Publish.Inv, Plane.Inv, Plane.Drained, Plane.NoSandbox;
    var key, image := s.pc.job.key, s.pc.job.image;
    if step.PublishBegin? {
      Publish.StepKeeps(s.publish, Publish.Begin(key, image));
      Publish.ReportedCoversReferences(Next(s, step).publish, key, image);
    } else {
      Publish.StepKeeps(s.publish, Publish.FinalizeRow(key));
    }
  }

  lemma RunnerStepKeeps(s: State, step: Step)
    requires Inv(s) && Enabled(s, step) && step.RunnerBegin?
    ensures Inv(Next(s, step))
  {
    hide BuildRuns.Good, Publish.Inv, Plane.Inv, Publish.References;
    Plane.StepKeeps(s.runner, Plane.Gate(s.pc.job.image));
  }

  lemma CancelKeeps(s: State, ok: bool)
    requires Inv(s) && Enabled(s, Cancel(ok))
    ensures Inv(Next(s, Cancel(ok)))
  {
    hide BuildRuns.Good, Publish.Inv, Plane.Inv, Next, Progress;
    OwnersKept(s, ok);
    CancelOnlyRollsBack(s, ok);
    RollingBackIsProgress(s, Next(s, Cancel(ok)));
  }

  lemma RollingBackIsProgress(s: State, n: State)
    requires Progress(s) && s.pc.RollingBack? && (n.pc.Resting? || (n.pc.RollingBack? && n.pc.gates != []))
    requires n.deleted == s.deleted && n.unfinished == s.unfinished
    ensures Progress(n)
  {}

  lemma CancelOnlyRollsBack(s: State, ok: bool)
    requires Enabled(s, Cancel(ok))
    ensures var n := Next(s, Cancel(ok));
            && (n.pc.Resting? || (n.pc.RollingBack? && n.pc.gates != []))
            && n.deleted == s.deleted && n.unfinished == s.unfinished
  {
    hide Plane.Next, Publish.Next, BuildTables.CancelRetirement;
  }

  lemma OwnersKept(s: State, ok: bool)
    requires Inv(s) && Enabled(s, Cancel(ok))
    ensures var n := Next(s, Cancel(ok));
            BuildRuns.Good(n.build) && Publish.Inv(n.publish) && Plane.Inv(n.runner)
  {
    hide BuildRuns.Good, Publish.Inv, Plane.Inv, Progress, Plane.Next, Publish.Next;
    var job := s.pc.job;
    match s.pc.gates[0]
    case Build => BuildRuns.StepKeeps(s.build, BuildRuns.Cancel(job.env));
    case Publishing => Publish.StepKeeps(s.publish, Publish.CancelRow(job.key));
    case Runner => Plane.StepKeeps(s.runner, Plane.Ungate(job.image));
  }

  lemma StepKeeps(s: State, step: Step)
    requires Inv(s) && Enabled(s, step)
    ensures Inv(Next(s, step))
  {
    hide Inv, Next, Enabled;
    match step
    case BuildClient(b) => BuildClientKeeps(s, b);
    case PublishClient(p) => PublishClientKeeps(s, p);
    case RunnerClient(r) => RunnerClientKeeps(s, r);
    case BuildRetire => BuildRetireKeeps(s);
    case BuildFinalize => BuildFinalizeKeeps(s);
    case PublishBegin => PublishStepKeeps(s, step);
    case PublishFinalize => PublishStepKeeps(s, step);
    case RunnerBegin => RunnerStepKeeps(s, step);
    case Cancel(ok) => CancelKeeps(s, ok);
    case _ => LocalStepKeeps(s, step);
  }

  predicate Local(step: Step) {
    !step.BuildClient? && !step.PublishClient? && !step.RunnerClient? && !step.BuildRetire? && !step.BuildFinalize?
    && !step.PublishBegin? && !step.PublishFinalize? && !step.RunnerBegin? && !step.Cancel?
  }

  /** Steps in which the coordinator only looks and decides. */
  lemma LocalStepKeeps(s: State, step: Step)
    requires Inv(s) && Enabled(s, step) && Local(step)
    ensures Inv(Next(s, step))
  {
    hide BuildRuns.Good, Publish.Inv, Plane.Inv, Publish.References, Plane.NoSandbox, BuildTables.ActiveJobs;
  }

  lemma {:induction false} EveryRun(s: State, steps: seq<Step>)
    requires Inv(s) && Legal(s, steps)
    ensures Inv(Execute(s, steps))
    decreases |steps|
  {
    if steps != [] {
      StepKeeps(s, steps[0]);
      EveryRun(Next(s, steps[0]), steps[1..]);
    }
  }

  function Initial(caps: Quota.Caps): State {
    State(BuildRuns.EMPTY, Publish.EMPTY, Plane.Initial(caps), {}, Resting, false, false, false)
  }

  lemma FromTheStart(caps: Quota.Caps, steps: seq<Step>)
    requires 0 < caps.live && 0 < caps.perTenant && Legal(Initial(caps), steps)
    ensures Inv(Execute(Initial(caps), steps))
  {
    StartsGood(caps);
    hide Inv;
    EveryRun(Initial(caps), steps);
  }

  lemma StartsGood(caps: Quota.Caps)
    requires 0 < caps.live && 0 < caps.perTenant
    ensures Inv(Initial(caps))
  {
    hide Plane.Inv;
    Plane.FromTheStart(caps, []);
  }

  /** No owner lets anybody use the artifact or start to. */
  ghost predicate Unused(s: State, job: Job) {
    && job.env in s.build.tables.envs && s.build.tables.envs[job.env].lifecycle.RETIRING?
    && BuildTables.ActiveJobs(s.build.tables, job.env) == {}
    && job.key in s.publish.rows && Publish.References(s.publish, job.key) == {}
    && job.image in s.runner.gates && Plane.Acquirers(s.runner.threads, job.image) == {}
  }

  /** Over any executions and any client steps: whenever the artifact is deleted, it is
      unused; and no sandbox of it exists unless a create call was undecided when the
      sandboxes were listed. */
  lemma DeletesOnlyUnused(caps: Quota.Caps, steps: seq<Step>)
    requires 0 < caps.live && 0 < caps.perTenant && Legal(Initial(caps), steps)
    ensures var s := Execute(Initial(caps), steps);
            Enabled(s, HarborDelete) ==>
              Unused(s, s.pc.job) && (!s.undecided ==> NoSandbox(s.runner, s.pc.job.image))
  {
    FromTheStart(caps, steps);
    hide Inv, Enabled, Initial, Unused, NoSandbox;
    DeletingIsUnused(Execute(Initial(caps), steps));
  }

  lemma DeletingIsUnused(s: State)
    requires Inv(s)
    ensures Enabled(s, HarborDelete) ==>
              Unused(s, s.pc.job) && (!s.undecided ==> NoSandbox(s.runner, s.pc.job.image))
  {
    hide Publish.Inv, BuildRuns.BuildersAgree, BuildRuns.TargetsCover;
    if s.pc.Deleting? {
      BuildTables.OneActiveJob(s.build.tables, s.pc.job.env);
      assert Plane.Counted(s.runner);
    }
  }

  /** That exception is exact: before the deletion a sandbox can still come if and only
      if such a call is outstanding. */
  lemma SandboxCanStillCome(s: State)
    requires Inv(s) && s.pc.Deleting? && NoSandbox(s.runner, s.pc.job.image)
    ensures Plane.StaysEmpty(s.runner, s.pc.job.image) <==> s.pc.job.image !in s.runner.lost
  {
    Plane.DrainedExactly(s.runner, s.pc.job.image);
  }

  /** In an execution that deleted the artifact a gate is cancelled if and only if Build
      failed to finalize after Harbor had deleted. */
  lemma CancelAfterDelete(caps: Quota.Caps, steps: seq<Step>, ok: bool)
    requires 0 < caps.live && 0 < caps.perTenant && Legal(Initial(caps), steps)
    ensures var s := Execute(Initial(caps), steps);
            Enabled(s, Cancel(ok)) ==> (s.deleted <==> s.unfinished)
  {
    FromTheStart(caps, steps);
    hide Inv, Enabled, Initial;
    CancelFlags(Execute(Initial(caps), steps), ok);
  }

  lemma CancelFlags(s: State, ok: bool)
    requires Inv(s)
    ensures Enabled(s, Cancel(ok)) ==> (s.deleted <==> s.unfinished)
  {
    hide BuildRuns.Good, Publish.Inv, Plane.Inv, Plane.NoSandbox, Plane.Drained;
  }

  /** And then it is: every gate started is up for cancelling. */
  lemma FailedFinalizeReopens(s: State)
    requires Enabled(s, HarborDelete)
    ensures var failed := Next(Next(s, HarborDelete), Fail);
            failed.deleted && failed.unfinished && failed.pc == RollingBack(s.pc.job, [Runner, Publishing, Build])
  {}
}
