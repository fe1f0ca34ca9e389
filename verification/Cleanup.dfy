/** How an execution of the coordinator ends: rolled back among any client steps, or left
    to itself. */
module Cleanup {
  import opened Wrappers
  import BuildTables
  import BuildRuns
  import Publish
  import Plane
  import opened Saga

  // ----- one cancel

  /** Where a cancel leaves the coordinator, whether or not the owner complied. */
  predicate OneGateLess(before: Pc, after: Pc)
    requires before.RollingBack? && before.gates != []
  {
    after == if |before.gates| == 1 then Resting else RollingBack(before.job, before.gates[1..])
  }

  lemma FailedCancel(s: State)
    requires Enabled(s, Cancel(false))
    ensures var n := Next(s, Cancel(false));
            && n.build == s.build && n.publish == s.publish && n.runner == s.runner && n.finished == s.finished
            && OneGateLess(s.pc, n.pc)
  {}

  /** A RETIRING environment is ACTIVE again; nothing else about it, no other environment,
      alias or job, and no other owner changes. */
  lemma CancelReopensBuild(s: State)
    requires Enabled(s, Cancel(true)) && s.pc.gates[0] == Build
    ensures var n, env := Next(s, Cancel(true)), s.pc.job.env;
            var was, now := s.build.tables, n.build.tables;
            && (env in was.envs && was.envs[env].lifecycle == BuildTables.RETIRING ==>
                  env in now.envs && now.envs[env] == was.envs[env].(lifecycle := BuildTables.ACTIVE))
            && (env in was.envs && was.envs[env].lifecycle != BuildTables.RETIRING ==> now == was)
            && now.envs.Keys == was.envs.Keys
            && (forall id :: id in was.envs && id != env ==> now.envs[id] == was.envs[id])
            && now.byKey == was.byKey && now.aliases == was.aliases && now.jobs == was.jobs
            && n.build.threads == s.build.threads
            && n.publish == s.publish && n.runner == s.runner && n.finished == s.finished && OneGateLess(s.pc, n.pc)
  {}

  /** The row is gone unless it is RETIRED, when it stays as it is; no other row changes,
      nothing published does, and no other owner. */
  lemma CancelReopensPublish(s: State)
    requires Enabled(s, Cancel(true)) && s.pc.gates[0] == Publishing
    ensures var n, key := Next(s, Cancel(true)), s.pc.job.key;
            && (key in s.publish.rows && s.publish.rows[key].retired <==> key in n.publish.rows)
            && (forall k :: k in n.publish.rows ==> k in s.publish.rows && n.publish.rows[k] == s.publish.rows[k])
            && (forall k :: k in s.publish.rows && k != key ==> k in n.publish.rows)
            && n.publish.versions == s.publish.versions && n.publish.published == s.publish.published
            && n.publish.publishers == s.publish.publishers
            && n.build == s.build && n.runner == s.runner && n.finished == s.finished && OneGateLess(s.pc, n.pc)
  {}

  /** The image may be acquired again unless it is finished for good; no other image, worker,
      account or sandbox is touched, and no other owner. */
  lemma CancelReopensRunner(s: State)
    requires Enabled(s, Cancel(true)) && s.pc.gates[0] == Runner
    ensures var n, image := Next(s, Cancel(true)), s.pc.job.image;
            && (image in n.runner.gates <==> image in s.runner.gates && image in s.finished)
            && (forall other :: other != image ==> (other in n.runner.gates <==> other in s.runner.gates))
            && n.runner == s.runner.(gates := n.runner.gates)
            && n.build == s.build && n.publish == s.publish && n.finished == s.finished && OneGateLess(s.pc, n.pc)
  {
    Ungated(s.runner, s.pc.job.image);
    hide Plane.Next;
  }

  lemma Ungated(r: Plane.State, image: string)
    ensures Plane.Next(r, Plane.Ungate(image)) == r.(gates := r.gates - {image})
  {}

  lemma Gated(r: Plane.State, image: string)
    ensures Plane.Next(r, Plane.Gate(image)) == r.(gates := r.gates + {image})
  {}

  // ----- a whole rollback

  /** This owner turns nobody away on account of the job, unless that was settled for good. */
  predicate Open(s: State, job: Job, owner: Owner) {
    match owner
    case Build => job.env in s.build.tables.envs ==> s.build.tables.envs[job.env].lifecycle != BuildTables.RETIRING
    case Publishing => job.key in s.publish.rows ==> s.publish.rows[job.key].retired
    case Runner => job.image in s.runner.gates ==> job.image in s.finished
  }

  predicate ClientStep(step: Step) { step.BuildClient? || step.PublishClient? || step.RunnerClient? }

  lemma CancelOpens(s: State)
    requires Enabled(s, Cancel(true))
    ensures Open(Next(s, Cancel(true)), s.pc.job, s.pc.gates[0])
  {
    hide Next;
    match s.pc.gates[0]
    case Build => CancelReopensBuild(s);
    case Publishing => CancelReopensPublish(s);
    case Runner => CancelReopensRunner(s);
  }

  lemma CancelKeepsOpen(s: State, job: Job, owner: Owner)
    requires Enabled(s, Cancel(true)) && Open(s, job, owner)
    ensures Open(Next(s, Cancel(true)), job, owner)
  {
    hide Next;
    match s.pc.gates[0]
    case Build => CancelReopensBuild(s);
    case Publishing => CancelReopensPublish(s);
    case Runner => CancelReopensRunner(s);
  }

  lemma NoClientRetires(s: BuildRuns.State, step: BuildRuns.Step, id: BuildTables.EnvId)
    requires BuildRuns.Enabled(s, step) && BuildRuns.ByClient(step)
    requires id in s.tables.envs ==> s.tables.envs[id].lifecycle != BuildTables.RETIRING
    ensures var n := BuildRuns.Next(s, step).tables;
            id in n.envs ==> n.envs[id].lifecycle != BuildTables.RETIRING
  {}

  lemma ClientKeepsOpen(s: State, step: Step, job: Job, owner: Owner)
    requires Enabled(s, step) && ClientStep(step) && Open(s, job, owner)
    ensures Open(Next(s, step), job, owner) && Next(s, step).pc == s.pc
  {
    hide BuildRuns.Next, Plane.Next, BuildRuns.Enabled, Plane.Enabled;
    match step
    case BuildClient(b) => if owner.Build? { NoClientRetires(s.build, b, job.env); }
    case PublishClient(_) =>
    case RunnerClient(r) => GatesKept(s.runner, r);
  }

  /** Client steps, and cancels that succeed. */
  predicate Undoing(step: Step) { ClientStep(step) || step == Cancel(true) }

  function Cancels(steps: seq<Step>): nat {
    if steps == [] then 0 else (if steps[0].Cancel? then 1 else 0) + Cancels(steps[1..])
  }

  lemma {:induction false} StaysOpen(s: State, steps: seq<Step>, job: Job, owner: Owner)
    requires Legal(s, steps) && Open(s, job, owner) && forall i :: 0 <= i < |steps| ==> Undoing(steps[i])
    ensures Open(Execute(s, steps), job, owner)
    decreases |steps|
  {
    if steps != [] {
      hide Open, Next, Enabled;
      assert Undoing(steps[0]);
      if ClientStep(steps[0]) { ClientKeepsOpen(s, steps[0], job, owner); } else { CancelKeepsOpen(s, job, owner); }
      StaysOpen(Next(s, steps[0]), steps[1..], job, owner);
    }
  }

  /** A rollback whose cancels all succeed, with any client steps between and after them:
      as many cancels as gates were started end it, and then every one of those is open. */
  lemma {:induction false} RollbackReopens(s: State, steps: seq<Step>)
    requires s.pc.RollingBack? && s.pc.gates != []
    requires Legal(s, steps) && forall i :: 0 <= i < |steps| ==> Undoing(steps[i])
    ensures var end := Execute(s, steps);
            && Cancels(steps) <= |s.pc.gates|
            && (end.pc.Resting? <==> Cancels(steps) == |s.pc.gates|)
            && (forall i :: 0 <= i < Cancels(steps) ==> Open(end, s.pc.job, s.pc.gates[i]))
    decreases |steps|
  {
    if steps != [] {
      hide Open, Next, Enabled;
      assert Undoing(steps[0]);
      var n, rest := Next(s, steps[0]), steps[1..];
      if ClientStep(steps[0]) {
        PcKept(s, steps[0]);
        RollbackReopens(n, rest);
      } else {
        OneGateGoes(s);
        CancelOpens(s);
        StaysOpen(n, rest, s.pc.job, s.pc.gates[0]);
        if n.pc.Resting? { RestsOnward(n, rest); } else { RollbackReopens(n, rest); }
      }
    }
  }

  lemma PcKept(s: State, step: Step)
    requires Enabled(s, step) && ClientStep(step)
    ensures Next(s, step).pc == s.pc
  {}

  lemma OneGateGoes(s: State)
    requires Enabled(s, Cancel(true))
    ensures s.pc.RollingBack? && s.pc.gates != [] && OneGateLess(s.pc, Next(s, Cancel(true)).pc)
  {}

  lemma {:induction false} RestsOnward(s: State, steps: seq<Step>)
    requires s.pc.Resting?
    requires Legal(s, steps) && forall i :: 0 <= i < |steps| ==> Undoing(steps[i])
    ensures Execute(s, steps).pc.Resting? && Cancels(steps) == 0
    decreases |steps|
  {
    if steps != [] {
      assert Undoing(steps[0]);
      assert !(steps[0] == Cancel(true));
      PcKept(s, steps[0]);
      RestsOnward(Next(s, steps[0]), steps[1..]);
    }
  }

  // ----- a whole execution, with any client steps in between

  /** No new execution, and every cancel there is succeeds. */
  predicate OneExecution(steps: seq<Step>) {
    forall i :: 0 <= i < |steps| ==> !steps[i].Plan? && (steps[i].Cancel? ==> steps[i].ok)
  }

  /** The owner a step has asked to close its gate, successfully. */
  function StartedBy(s: State, step: Step): set<Owner>
    requires Enabled(s, step)
  {
    if step.BuildRetire? && Next(s, step).pc.BuildGated? then {Build}
    else if step.PublishBegin? then {Publishing}
    else if step.RunnerBegin? && Next(s, step).pc.RunnerGated? then {Runner}
    else {}
  }

  function Started(s: State, steps: seq<Step>): set<Owner>
    requires Legal(s, steps)
    decreases |steps|
  {
    if steps == [] then {} else StartedBy(s, steps[0]) + Started(Next(s, steps[0]), steps[1..])
  }

  predicate Under(pc: Pc) {
    !pc.Resting? && !pc.RollingBack? && !pc.ArtifactGone? && !pc.RunnerDone?
  }

  predicate SameTarget(a: Job, b: Job) { a == b.(retired := a.retired) }

  function Queued(pc: Pc): seq<Owner> {
    if pc.RollingBack? then pc.gates else GatesStarted(pc)
  }

  /** What has been started is queued as soon as a rollback begins. */
  lemma StepQueues(s: State, step: Step)
    requires Enabled(s, step) && Under(s.pc) && !step.Plan?
    ensures var n := Next(s, step);
            || n.pc.Resting? || n.pc.ArtifactGone?
            || ((Under(n.pc) || (n.pc.RollingBack? && n.pc.gates != [])) && SameTarget(n.pc.job, s.pc.job)
                && (forall o :: o in StartedBy(s, step) || o in Queued(s.pc) ==> o in Queued(n.pc)))
  {
    hide Plane.Next, Publish.Next, BuildRuns.Next, Plane.Enabled, BuildRuns.Enabled, Publish.Safe, MayDelete;
  }

  /** Once it rests or has deleted, it cancels nothing. */
  lemma {:induction false} NothingToCancel(s: State, steps: seq<Step>)
    requires s.pc.Resting? || s.pc.ArtifactGone? || s.pc.RunnerDone?
    requires Legal(s, steps) && OneExecution(steps)
    ensures Cancels(steps) == 0
    decreases |steps|
  {
    if steps != [] {
      StaysSettled(s, steps[0]);
      NothingToCancel(Next(s, steps[0]), steps[1..]);
    }
  }

  lemma StaysSettled(s: State, step: Step)
    requires (s.pc.Resting? || s.pc.ArtifactGone? || s.pc.RunnerDone?) && Enabled(s, step) && !step.Plan?
    ensures var n := Next(s, step); !step.Cancel? && (n.pc.Resting? || n.pc.ArtifactGone? || n.pc.RunnerDone?)
  {
    hide Plane.Next, Publish.Next, BuildRuns.Next, Plane.Enabled, BuildRuns.Enabled;
  }

  /** A rollback under way does nothing but cancel. */
  lemma {:induction false} OnlyUndoing(s: State, steps: seq<Step>)
    requires s.pc.Resting? || s.pc.RollingBack?
    requires Legal(s, steps) && OneExecution(steps)
    ensures Started(s, steps) == {} && forall i :: 0 <= i < |steps| ==> Undoing(steps[i])
    decreases |steps|
  {
    if steps != [] {
      UndoesNext(s, steps[0]);
      OnlyUndoing(Next(s, steps[0]), steps[1..]);
      forall i | 0 <= i < |steps| ensures Undoing(steps[i]) {
        if i > 0 { assert Undoing(steps[1..][i - 1]); }
      }
    }
  }

  lemma UndoesNext(s: State, step: Step)
    requires (s.pc.Resting? || s.pc.RollingBack?) && Enabled(s, step) && !step.Plan? && (step.Cancel? ==> step.ok)
    ensures Undoing(step) && StartedBy(s, step) == {} && (Next(s, step).pc.Resting? || Next(s, step).pc.RollingBack?)
  {
    hide Plane.Next, Publish.Next, BuildRuns.Next, Plane.Enabled, BuildRuns.Enabled;
  }

  /** Whatever makes an execution roll back and wherever that happens: when its cancels
      succeed, every gate it had closed is open at its end, among any client steps. */
  lemma {:induction false} RolledBackExecution(s: State, steps: seq<Step>)
    requires Under(s.pc) || (s.pc.RollingBack? && s.pc.gates != [])
    requires Legal(s, steps) && OneExecution(steps) && Cancels(steps) > 0 && Execute(s, steps).pc.Resting?
    ensures forall o :: o in Started(s, steps) || o in Queued(s.pc) ==> Open(Execute(s, steps), s.pc.job, o)
    decreases |steps|
  {
    hide Enabled, Next, Open, StartedBy;
    if s.pc.RollingBack? {
      OnlyUndoing(s, steps);
      RollbackReopens(s, steps);
    } else {
      var n, rest := Next(s, steps[0]), steps[1..];
      NotYetCancelling(s, steps[0]);
      StepQueues(s, steps[0]);
      if n.pc.Resting? || n.pc.ArtifactGone? { NothingToCancel(n, rest); }
      else {
        RolledBackExecution(n, rest);
        forall o | o in Started(s, steps) || o in Queued(s.pc) ensures Open(Execute(s, steps), s.pc.job, o) {
          SameOpen(Execute(s, steps), s.pc.job, n.pc.job, o);
        }
      }
    }
  }

  lemma NotYetCancelling(s: State, step: Step)
    requires Under(s.pc) && Enabled(s, step)
    ensures !step.Cancel?
  {}

  lemma SameOpen(s: State, a: Job, b: Job, owner: Owner)
    requires SameTarget(a, b)
    ensures Open(s, a, owner) <==> Open(s, b, owner)
  {}

  // ----- an execution left to itself

  lemma Peel(s: State, step: Step, rest: seq<Step>)
    ensures Legal(s, [step] + rest) <==> Enabled(s, step) && Legal(Next(s, step), rest)
    ensures Legal(s, [step] + rest) ==> Execute(s, [step] + rest) == Execute(Next(s, step), rest)
  {
    assert ([step] + rest)[1..] == rest;
  }

  const FROM_DRAINED: seq<Step> := [CheckArtifact] + ([HarborDelete] + [])
  const FROM_LISTING: seq<Step> := [ReadList] + FROM_DRAINED
  const FROM_COUNTER: seq<Step> := [ReadCounter] + FROM_LISTING
  const FROM_PUBLISHED: seq<Step> := [RunnerBegin] + FROM_COUNTER
  const FROM_BUILT: seq<Step> := [PublishBegin] + FROM_PUBLISHED
  const FROM_PLANNED: seq<Step> := [BuildRetire] + FROM_BUILT

  /** The whole way to the artifact's deletion. */
  function ToDeletion(env: BuildTables.EnvId, image: string): seq<Step> {
    [Plan(env, image)] + FROM_PLANNED
  }

  predicate Built(env: BuildTables.Env) { env.status == BuildTables.READY || env.status == BuildTables.FAILED }

  /** What is still to be found out about the artifact once its use is over. */
  predicate Deletable(t: BuildTables.Tables, job: Job) {
    && job.env in t.envs && !job.retired && t.envs[job.env].lifecycle == BuildTables.RETIRING && Built(t.envs[job.env])
    && t.envs[job.env].image == Some(job.image)
  }

  lemma CheckDecides(s: State)
    requires Inv(s) && s.pc.Drained?
    ensures Enabled(s, CheckArtifact) <==> !s.pc.job.retired
    ensures !s.pc.job.retired ==>
              var n := Next(s, CheckArtifact);
              n.pc == if Deletable(s.build.tables, s.pc.job) then Deleting(s.pc.job)
                      else RollingBack(s.pc.job, [Runner, Publishing, Build])
    ensures Enabled(s, SkipDelete) <==> s.pc.job.retired
    ensures s.pc.job.retired ==> Next(s, SkipDelete) == s.(pc := ArtifactGone(s.pc.job))
  {
    hide BuildRuns.Good, Publish.Inv, Plane.Inv, Plane.NoSandbox, Plane.Drained, Publish.References;
    hide BuildTables.ActiveJobs;
    if !s.pc.job.retired { NoBuilderLeft(s, s.pc.job.env); }
  }

  lemma NoBuilderLeft(s: State, env: BuildTables.EnvId)
    requires Inv(s) && env in s.build.tables.envs && s.build.tables.envs[env].lifecycle != BuildTables.ACTIVE
    ensures BuildTables.ActiveJobs(s.build.tables, env) == {}
  {
    hide Publish.Inv, Plane.Inv, Progress, BuildRuns.BuildersAgree, BuildRuns.TargetsCover;
    BuildTables.OneActiveJob(s.build.tables, env);
  }

  lemma FromDrained(s: State)
    requires Inv(s) && s.pc.Drained?
    ensures Legal(s, FROM_DRAINED) <==> Deletable(s.build.tables, s.pc.job)
  {
    hide Inv, Next, Enabled, Deletable;
    Peel(s, CheckArtifact, [HarborDelete] + []);
    CheckDecides(s);
    if !s.pc.job.retired {
      var n := Next(s, CheckArtifact);
      Peel(n, HarborDelete, []);
      HarborIsNext(n);
    } else { RetiredIsNot(s); }
  }

  lemma HarborIsNext(s: State)
    ensures Enabled(s, HarborDelete) <==> s.pc.Deleting?
    ensures s.pc.Deleting? ==> Next(s, HarborDelete) == s.(pc := HarborDone(s.pc.job), deleted := true)
  {}

  lemma RetiredIsNot(s: State)
    requires s.pc.Drained? && s.pc.job.retired
    ensures !Deletable(s.build.tables, s.pc.job)
  {}

  predicate NobodyAcquires(s: State, image: string) { Plane.Acquirers(s.runner.threads, image) == {} }

  lemma ListDecides(s: State)
    requires s.pc.CounterRead?
    ensures Enabled(s, ReadList)
    ensures var n := Next(s, ReadList);
            n.pc == (if Plane.NoSandbox(s.runner, s.pc.job.image) then Drained(s.pc.job) else Resting)
            && n == s.(pc := n.pc, undecided := n.undecided)
  {}

  lemma FromListing(s: State)
    requires Inv(s) && s.pc.CounterRead?
    ensures Legal(s, FROM_LISTING) <==>
            Plane.NoSandbox(s.runner, s.pc.job.image) && Deletable(s.build.tables, s.pc.job)
  {
    hide Inv, Next, Plane.NoSandbox, Deletable;
    Peel(s, ReadList, FROM_DRAINED);
    ListDecides(s);
    StepKeeps(s, ReadList);
    var n := Next(s, ReadList);
    if n.pc.Drained? { FromDrained(n); }
    else { Peel(n, CheckArtifact, [HarborDelete] + []); }
  }

  lemma CounterDecides(s: State)
    requires Inv(s) && s.pc.RunnerGated?
    ensures Enabled(s, ReadCounter)
    ensures Next(s, ReadCounter)
            == s.(pc := if NobodyAcquires(s, s.pc.job.image) then CounterRead(s.pc.job) else Resting)
  {
    hide BuildRuns.Good, Publish.Inv, Publish.References, Plane.Conserved, Plane.Accounted, Plane.Exclusive;
    assert Plane.Counted(s.runner);
    var acquirers := Plane.Acquirers(s.runner.threads, s.pc.job.image);
    assert |acquirers| == 0 <==> acquirers == {};
  }

  lemma FromCounter(s: State)
    requires Inv(s) && s.pc.RunnerGated?
    ensures Legal(s, FROM_COUNTER) <==>
            && NobodyAcquires(s, s.pc.job.image) && Plane.NoSandbox(s.runner, s.pc.job.image)
            && Deletable(s.build.tables, s.pc.job)
  {
    hide Inv, Next, Plane.NoSandbox, Deletable, NobodyAcquires;
    Peel(s, ReadCounter, FROM_LISTING);
    CounterDecides(s);
    StepKeeps(s, ReadCounter);
    var n := Next(s, ReadCounter);
    if n.pc.CounterRead? { FromListing(n); }
    else { Peel(n, ReadList, FROM_DRAINED); }
  }

  lemma RunnerCloses(s: State)
    requires s.pc.PublishGated?
    ensures Enabled(s, RunnerBegin)
    ensures var job := s.pc.job;
            Next(s, RunnerBegin) == s.(runner := s.runner.(gates := s.runner.gates + {job.image}),
                                       pc := if job.image in s.finished then Resting else RunnerGated(job))
  {
    Gated(s.runner, s.pc.job.image);
    hide Plane.Next;
  }

  /** Nothing in the Runner stands in the way of deleting the image. */
  predicate RunnerLetsGo(s: State, image: string) {
    image !in s.finished && NobodyAcquires(s, image) && Plane.NoSandbox(s.runner, image)
  }

  lemma FromPublished(s: State)
    requires Inv(s) && s.pc.PublishGated?
    ensures Legal(s, FROM_PUBLISHED) <==> RunnerLetsGo(s, s.pc.job.image) && Deletable(s.build.tables, s.pc.job)
  {
    hide Inv, Next, Plane.NoSandbox, Deletable;
    Peel(s, RunnerBegin, FROM_COUNTER);
    RunnerCloses(s);
    StepKeeps(s, RunnerBegin);
    var n := Next(s, RunnerBegin);
    if n.pc.RunnerGated? {
      FromCounter(n);
      SameSandboxes(s.runner, n.runner, s.pc.job.image);
    } else { Peel(n, ReadCounter, FROM_LISTING); }
  }

  lemma SameSandboxes(r: Plane.State, n: Plane.State, image: string)
    requires r.live == n.live
    ensures Plane.NoSandbox(r, image) <==> Plane.NoSandbox(n, image)
  {}

  /** A current published variant that names the key, by what it was asked for or by what
      it runs in, or runs the image. */
  ghost predicate Mentioned(p: Publish.State, key: Publish.Key, image: string) {
    exists v :: v in p.published && v.operator in p.versions && v.version == p.versions[v.operator]
                && (p.published[v].runtimeKey == Some(key) || p.published[v].envKey == key
                    || p.published[v].image == image)
  }

  predicate RowRetired(p: Publish.State, key: Publish.Key) { key in p.rows && p.rows[key].retired }

  lemma PublishCloses(s: State)
    requires s.pc.BuildGated? && !Publish.Locked(s.publish, s.pc.job.key)
    ensures Enabled(s, PublishBegin)
    ensures var job, p := s.pc.job, s.publish;
            Next(s, PublishBegin) ==
            s.(publish := p.(rows := p.rows[job.key := Publish.Row(job.image, RowRetired(p, job.key))]),
               pc := if RowRetired(p, job.key) || Mentioned(p, job.key, job.image)
                     then RollingBack(job, [Publishing, Build]) else PublishGated(job))
  {
    var job, p := s.pc.job, s.publish;
    var n := Publish.Next(p, Publish.Begin(job.key, job.image));
    var found := Publish.ReportedReferences(n, job.key, job.image);
    if Mentioned(p, job.key, job.image) {
      var v :| v in p.published && v.operator in p.versions && v.version == p.versions[v.operator]
               && (p.published[v].runtimeKey == Some(job.key) || p.published[v].envKey == job.key
                   || p.published[v].image == job.image);
      assert v in found;
    }
  }

  lemma FromBuilt(s: State)
    requires Inv(s) && s.pc.BuildGated? && !Publish.Locked(s.publish, s.pc.job.key)
    ensures var job := s.pc.job;
            Legal(s, FROM_BUILT) <==>
            && !RowRetired(s.publish, job.key) && !Mentioned(s.publish, job.key, job.image)
            && RunnerLetsGo(s, job.image) && Deletable(s.build.tables, job)
  {
    hide Inv, Next, RunnerLetsGo, Deletable, Mentioned, RowRetired;
    Peel(s, PublishBegin, FROM_PUBLISHED);
    PublishCloses(s);
    StepKeeps(s, PublishBegin);
    var n := Next(s, PublishBegin);
    if n.pc.PublishGated? {
      FromPublished(n);
      SameRunner(s, n, s.pc.job.image);
    } else { Peel(n, RunnerBegin, FROM_COUNTER); }
  }

  lemma SameRunner(s: State, n: State, image: string)
    requires s.runner == n.runner && s.finished == n.finished
    ensures RunnerLetsGo(s, image) <==> RunnerLetsGo(n, image)
  {}

  /** Build is asked first: it refuses while the environment waits for a build or is in one. */
  lemma BuildCloses(s: State)
    requires Inv(s) && s.pc.Planned? && s.pc.job.env in s.build.tables.envs
    ensures Enabled(s, BuildRetire)
    ensures var job, t := s.pc.job, s.build.tables;
            var env := t.envs[job.env];
            var closed := if env.lifecycle == BuildTables.ACTIVE then env.(lifecycle := BuildTables.RETIRING) else env;
            Next(s, BuildRetire) ==
            if Built(env)
            then s.(build := s.build.(tables := t.(envs := t.envs[job.env := closed])),
                    pc := BuildGated(job.(retired := env.lifecycle == BuildTables.RETIRED)))
            else s.(pc := Resting)
  {
    hide Publish.Inv, Plane.Inv, Plane.NoSandbox, Plane.Drained, Publish.References, BuildRuns.BuildersAgree;
    hide BuildRuns.TargetsCover;
    var job, t := s.pc.job, s.build.tables;
    BuildTables.OneActiveJob(t, job.env);
    assert t.envs[job.env := t.envs[job.env]] == t.envs;
  }

  lemma Planning(s: State, env: BuildTables.EnvId, image: string)
    requires s.pc.Resting? && env in s.build.tables.envs
    ensures Enabled(s, Plan(env, image))
    ensures Next(s, Plan(env, image)) ==
            s.(pc := Planned(Job(env, s.build.tables.envs[env].spec, image, false)),
               deleted := false, unfinished := false, undecided := false)
  {}

  /** An execution that nobody interferes with deletes the artifact if and only if: the
      environment is built and not RETIRED, and has the image; its key's row is not RETIRED
      and no current published variant mentions key or image; and the Runner has not
      finished with the image, has no sandbox of it and nobody inside acquire. */
  lemma DeletesExactly(s: State, env: BuildTables.EnvId, image: string)
    requires Inv(s) && s.pc.Resting? && env in s.build.tables.envs
    requires !Publish.Locked(s.publish, s.build.tables.envs[env].spec)
    ensures var e := s.build.tables.envs[env];
            Legal(s, ToDeletion(env, image)) <==>
            && Built(e) && e.lifecycle != BuildTables.RETIRED && e.image == Some(image)
            && !RowRetired(s.publish, e.spec) && !Mentioned(s.publish, e.spec, image)
            && RunnerLetsGo(s, image)
  {
    hide Inv, Next, RunnerLetsGo, Mentioned, RowRetired;
    var e := s.build.tables.envs[env];
    Peel(s, Plan(env, image), FROM_PLANNED);
    Planning(s, env, image);
    StepKeeps(s, Plan(env, image));
    var planned := Next(s, Plan(env, image));
    Peel(planned, BuildRetire, FROM_BUILT);
    BuildCloses(planned);
    StepKeeps(planned, BuildRetire);
    var n := Next(planned, BuildRetire);
    if n.pc.BuildGated? {
      FromBuilt(n);
      SameRunner(s, n, image);
    } else { Peel(n, PublishBegin, FROM_PUBLISHED); }
  }

  predicate Unmoved(s: State, n: State) {
    n.build == s.build && n.publish == s.publish && n.runner == s.runner && n.finished == s.finished
  }

  /** Build's refusal, and a reference found by Publish once the two gates are open again,
      leave an ACTIVE environment without a row as if nobody had asked. */
  lemma NothingRemains(s: State, env: BuildTables.EnvId, image: string)
    requires Inv(s) && s.pc.Resting? && env in s.build.tables.envs
    requires !Publish.Locked(s.publish, s.build.tables.envs[env].spec)
    ensures var e := s.build.tables.envs[env];
            var refused := [Plan(env, image)] + ([BuildRetire] + []);
            !Built(e) ==> Legal(s, refused) && Execute(s, refused).pc.Resting? && Unmoved(s, Execute(s, refused))
    ensures var e := s.build.tables.envs[env];
            var undo := [Cancel(true)] + ([Cancel(true)] + []);
            var blocked := [Plan(env, image)] + ([BuildRetire] + ([PublishBegin] + undo));
            Built(e) && e.lifecycle == BuildTables.ACTIVE && e.spec !in s.publish.rows
            && Mentioned(s.publish, e.spec, image) ==>
              Legal(s, blocked) && Execute(s, blocked).pc.Resting? && Unmoved(s, Execute(s, blocked))
  {
    hide Inv, Next, Mentioned, Execute, Legal, Enabled;
    var e := s.build.tables.envs[env];
    Planning(s, env, image);
    StepKeeps(s, Plan(env, image));
    var planned := Next(s, Plan(env, image));
    BuildCloses(planned);
    var n := Next(planned, BuildRetire);
    Peel(s, Plan(env, image), [BuildRetire] + []);
    Peel(planned, BuildRetire, []);
    Stops(n);
    if Built(e) && e.lifecycle == BuildTables.ACTIVE && e.spec !in s.publish.rows
       && Mentioned(s.publish, e.spec, image) {
      var rest := [PublishBegin] + ([Cancel(true)] + ([Cancel(true)] + []));
      Peel(s, Plan(env, image), [BuildRetire] + rest);
      Peel(planned, BuildRetire, rest);
      BlockedAndUndone(n);
      var was := s.build.tables.envs;
      assert was[env := e.(lifecycle := BuildTables.RETIRING)][env := e] == was;
    }
  }

  lemma Stops(s: State)
    ensures Legal(s, []) && Execute(s, []) == s
  {}

  lemma BlockedAndUndone(s: State)
    requires s.pc.BuildGated? && !Publish.Locked(s.publish, s.pc.job.key) && s.pc.job.key !in s.publish.rows
    requires Mentioned(s.publish, s.pc.job.key, s.pc.job.image)
    requires s.pc.job.env in s.build.tables.envs
    requires s.build.tables.envs[s.pc.job.env].lifecycle == BuildTables.RETIRING
    ensures var steps := [PublishBegin] + ([Cancel(true)] + ([Cancel(true)] + []));
            var t, id := s.build.tables, s.pc.job.env;
            Legal(s, steps) && Execute(s, steps) ==
            s.(build := s.build.(tables := t.(envs := t.envs[id := t.envs[id].(lifecycle := BuildTables.ACTIVE)])),
               pc := Resting)
  {
    hide Mentioned, Execute, Legal, Next, Enabled, Publish.Locked;
    PublishCloses(s);
    var blocked := Next(s, PublishBegin);
    Unlocked(s.publish, blocked.publish, s.pc.job.key);
    Peel(s, PublishBegin, [Cancel(true)] + ([Cancel(true)] + []));
    MayCancel(blocked);
    Peel(blocked, Cancel(true), [Cancel(true)] + []);
    CancelReopensPublish(blocked);
    var undone := Next(blocked, Cancel(true));
    MayCancel(undone);
    Peel(undone, Cancel(true), []);
    CancelReopensBuild(undone);
    var end := Next(undone, Cancel(true));
    Stops(end);
    OnlyCancelsFields(blocked);
    OnlyCancelsFields(undone);
    assert end.publish.rows == s.publish.rows;
    var t, id := s.build.tables, s.pc.job.env;
    assert end.build.tables.envs == t.envs[id := t.envs[id].(lifecycle := BuildTables.ACTIVE)];
  }

  lemma MayCancel(s: State)
    requires s.pc.RollingBack? && s.pc.gates != []
    requires s.pc.gates[0] == Publishing ==> !Publish.Locked(s.publish, s.pc.job.key)
    ensures Enabled(s, Cancel(true))
  {}

  lemma OnlyCancelsFields(s: State)
    requires Enabled(s, Cancel(true))
    ensures var n := Next(s, Cancel(true));
            n == s.(build := n.build, publish := n.publish, runner := n.runner, pc := n.pc)
  {
    hide Plane.Next, Publish.Next, BuildTables.CancelRetirement;
  }

  lemma Unlocked(p: Publish.State, q: Publish.State, key: Publish.Key)
    requires p.publishers == q.publishers
    ensures Publish.Locked(p, key) <==> Publish.Locked(q, key)
  {}

  /** Once Build agrees to the deletion, an execution in which every owner complies ends with
      the environment RETIRED and unbound, the key's row RETIRED and the image finished and
      still gated. Nothing else changes. */
  lemma Completes(s: State)
    requires Inv(s) && s.pc.Deleting? && !Publish.Locked(s.publish, s.pc.job.key)
    ensures var job, t := s.pc.job, s.build.tables;
            var steps := [HarborDelete] + ([BuildFinalize] + ([RunnerFinalize] + ([PublishFinalize] + [])));
            Legal(s, steps) && job.env in t.envs && job.key in s.publish.rows &&
            var end := Execute(s, steps);
            && end.pc.Resting? && end.deleted
            && end.build.tables == t.(
                 envs := t.envs[job.env := t.envs[job.env].(lifecycle := BuildTables.RETIRED)],
                 aliases := end.build.tables.aliases)
            && (forall k :: k in end.build.tables.aliases <==> k in t.aliases && t.aliases[k] != job.env)
            && (forall k :: k in end.build.tables.aliases ==> end.build.tables.aliases[k] == t.aliases[k])
            && end.publish == s.publish.(rows := s.publish.rows[job.key := s.publish.rows[job.key].(retired := true)])
            && end.runner == s.runner && job.image in end.runner.gates
            && end.finished == s.finished + {job.image}
  {
    HeldAtDeletion(s);
    hide Inv, Execute, Legal, Next, Enabled, Publish.Locked;
    var publishing := [PublishFinalize] + [];
    Peel(s, HarborDelete, [BuildFinalize] + ([RunnerFinalize] + publishing));
    HarborIsNext(s);
    var s1 := Next(s, HarborDelete);
    Peel(s1, BuildFinalize, [RunnerFinalize] + publishing);
    BuildFinalizes(s1);
    var s2 := Next(s1, BuildFinalize);
    Peel(s2, RunnerFinalize, publishing);
    RunnerFinalizes(s2);
    var s3 := Next(s2, RunnerFinalize);
    Unlocked(s.publish, s3.publish, s.pc.job.key);
    Peel(s3, PublishFinalize, []);
    PublishFinalizes(s3);
    Stops(Next(s3, PublishFinalize));
  }

  lemma BuildFinalizes(s: State)
    requires s.pc.HarborDone? && s.pc.job.env in s.build.tables.envs
    requires s.build.tables.envs[s.pc.job.env].lifecycle == BuildTables.RETIRING
    ensures Enabled(s, BuildFinalize)
    ensures var job, t, n := s.pc.job, s.build.tables, Next(s, BuildFinalize);
            && n.build.tables == t.(
                 envs := t.envs[job.env := t.envs[job.env].(lifecycle := BuildTables.RETIRED)],
                 aliases := n.build.tables.aliases)
            && (forall k :: k in n.build.tables.aliases <==> k in t.aliases && t.aliases[k] != job.env)
            && (forall k :: k in n.build.tables.aliases ==> n.build.tables.aliases[k] == t.aliases[k])
            && n == s.(build := n.build, pc := ArtifactGone(job))
  {}

  lemma RunnerFinalizes(s: State)
    requires s.pc.ArtifactGone?
    ensures Enabled(s, RunnerFinalize)
    ensures Next(s, RunnerFinalize) == s.(finished := s.finished + {s.pc.job.image}, pc := RunnerDone(s.pc.job))
  {}

  lemma PublishFinalizes(s: State)
    requires s.pc.RunnerDone? && !Publish.Locked(s.publish, s.pc.job.key) && s.pc.job.key in s.publish.rows
    ensures Enabled(s, PublishFinalize)
    ensures var p, key := s.publish, s.pc.job.key;
            Next(s, PublishFinalize)
            == s.(publish := p.(rows := p.rows[key := p.rows[key].(retired := true)]), pc := Resting)
  {}

  lemma HeldAtDeletion(s: State)
    requires Inv(s) && s.pc.Deleting?
    ensures s.pc.job.env in s.build.tables.envs && s.pc.job.key in s.publish.rows && s.pc.job.image in s.runner.gates
    ensures s.build.tables.envs[s.pc.job.env].lifecycle == BuildTables.RETIRING
  {
    hide BuildRuns.Good, Publish.Inv, Plane.Inv, Plane.NoSandbox, Plane.Drained;
  }
}
