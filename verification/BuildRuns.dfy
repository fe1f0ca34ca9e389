/** Resolves, retries, builders and retirements of environments in any interleaving. */
module BuildRuns {
  import opened Wrappers
  import opened BuildTables

  datatype Pc =
    | Idle
    | Choosing(request: Spec)
    | Reusing(request: Spec, env: EnvId)
    | Creating(request: Spec)
    | Reactivating(request: Spec, env: EnvId)
    | Binding(request: Spec, env: EnvId, pending: bool)
    | Claiming(request: Spec, env: EnvId)
    | Resetting(request: Spec, env: EnvId)
    | Building(env: EnvId, job: JobId)
    | Verifying(env: EnvId, job: JobId)

  type Thread = nat
  datatype State = State(tables: Tables, threads: map<Thread, Pc>)

  datatype Step =
    | Resolve(t: Thread, request: Spec)
    | Choose(t: Thread, candidate: Option<EnvId>)
    | Create(t: Thread, newId: EnvId, now: int)
    | React(t: Thread)
    | BindTo(t: Thread)
    | ClaimJob(t: Thread, newJob: JobId)
    | Verify(t: Thread)
    | Finish(t: Thread, image: Option<string>)   // None: the build or its verification failed
    | Retry(t: Thread, request: Spec)
    | Reset(t: Thread)
    | Crash(t: Thread)
    | Retire(env: EnvId)
    | Cancel(env: EnvId)
    | Finalize(env: EnvId)

  function PcOf(s: State, t: Thread): Pc {
    if t in s.threads then s.threads[t] else Idle
  }

  /** Steps of clients, as opposed to the retirement of an environment. */
  predicate ByClient(step: Step) { !(step.Retire? || step.Cancel? || step.Finalize?) }

  ghost predicate Enabled(s: State, step: Step) {
    match step
    case Resolve(t, _) => PcOf(s, t).Idle?
    case Choose(t, candidate) =>
      PcOf(s, t).Choosing? && (candidate.Some? ==> SmallestSuperset(s.tables, PcOf(s, t).request, candidate.value))
    case Create(t, newId, _) => PcOf(s, t).Creating? && newId !in s.tables.envs
    case React(t) => PcOf(s, t).Reactivating?
    case BindTo(t) => PcOf(s, t).Reusing? || PcOf(s, t).Binding?
    case ClaimJob(t, newJob) => PcOf(s, t).Claiming? && newJob !in s.tables.jobs
    case Verify(t) => PcOf(s, t).Building?
    case Finish(t, image) => PcOf(s, t).Verifying? || (PcOf(s, t).Building? && image == None)
    case Retry(t, _) => PcOf(s, t).Idle?
    case Reset(t) => PcOf(s, t).Resetting?
    case _ => true
  }

  function Or(t: Option<Tables>, otherwise: Tables): Tables {
    if t.Some? then t.value else otherwise
  }

  function TablesAfter(s: State, step: Step): Tables
    requires Enabled(s, step)
  {
    var t := s.tables;
    match step
    case Create(th, newId, now) => CreateExact(t, PcOf(s, th).request, newId, now).0
    case React(th) => Or(Reactivate(t, PcOf(s, th).env), t)
    case BindTo(th) => Bind(t, PcOf(s, th).request, PcOf(s, th).env).0
    case ClaimJob(th, newJob) => Or(Claim(t, PcOf(s, th).env, newJob), t)
    case Verify(th) => Mark(t, PcOf(s, th).env, PcOf(s, th).job, VERIFYING, None)
    case Finish(th, image) =>
      Mark(t, PcOf(s, th).env, PcOf(s, th).job, if image.Some? then READY else FAILED, image)
    case Reset(th) => Or(ResetFailed(t, PcOf(s, th).env), t)
    case Retire(env) => Or(BeginRetirement(t, env), t)
    case Cancel(env) => Or(CancelRetirement(t, env), t)
    case Finalize(env) => FinalizeRetirement(t, env)
    case _ => t
  }

  function StatusOf(t: Tables, id: EnvId): Status {
    if id in t.envs then t.envs[id].status else FAILED
  }

  function PcAfter(s: State, step: Step): Pc
    requires Enabled(s, step) && ByClient(step)
  {
    var pc := PcOf(s, step.t);
    match step
    case Resolve(_, request) =>
      var found := GetForRequest(s.tables, request);
      if found == None then Choosing(request)
      else if StatusOf(s.tables, found.value) == PENDING then Claiming(request, found.value)
      else Idle
    case Choose(_, candidate) =>
      if candidate.Some? then Reusing(pc.request, candidate.value) else Creating(pc.request)
    case Create(_, newId, now) =>
      var (n, made) := CreateExact(s.tables, pc.request, newId, now);
      (match made
       case Exact(env) => Binding(pc.request, env, StatusOf(n, env) == PENDING)
       case Retired(env) => Reactivating(pc.request, env)
       case BeingRetired => Idle)
    case React(_) =>
      if Reactivate(s.tables, pc.env).Some? then Binding(pc.request, pc.env, true) else Idle
    case BindTo(_) =>
      if pc.Binding? && pc.pending && Bind(s.tables, pc.request, pc.env).1 == Accepted
      then Claiming(pc.request, pc.env) else Idle
    case ClaimJob(_, newJob) => if Claim(s.tables, pc.env, newJob).Some? then Building(pc.env, newJob) else Idle
    case Verify(_) => Verifying(pc.env, pc.job)
    case Retry(_, request) =>
      var found := GetForRequest(s.tables, request);
      if found.Some? && StatusOf(s.tables, found.value) == FAILED then Resetting(request, found.value) else Idle
    case Reset(_) => if ResetFailed(s.tables, pc.env).Some? then Claiming(pc.request, pc.env) else Idle
    case _ => Idle
  }

  function Next(s: State, step: Step): State
    requires Enabled(s, step)
  {
    State(TablesAfter(s, step), if ByClient(step) then s.threads[step.t := PcAfter(s, step)] else s.threads)
  }

  function Execute(s: State, steps: seq<Step>): State
    requires Legal(s, steps)
    decreases |steps|
  {
    if steps == [] then s else Execute(Next(s, steps[0]), steps[1..])
  }

  ghost predicate Legal(s: State, steps: seq<Step>)
    decreases |steps|
  {
    steps == [] || (Enabled(s, steps[0]) && Legal(Next(s, steps[0]), steps[1..]))
  }

  // ----- invariants

  function Builds(pc: Pc): Option<JobId> {
    match pc
    case Building(_, job) => Some(job)
    case Verifying(_, job) => Some(job)
    case _ => None
  }

  /** A builder's job is the active job of its environment, at the builder's stage. */
  ghost predicate BuilderAgrees(t: Tables, pc: Pc)
    requires Builds(pc).Some?
  {
    var j := Builds(pc).value;
    j in t.jobs && t.jobs[j] == Job(pc.env, if pc.Building? then BUILDING else VERIFYING)
  }

  ghost predicate BuildersAgree(s: State) {
    && (forall t :: t in s.threads && Builds(s.threads[t]).Some? ==> BuilderAgrees(s.tables, s.threads[t]))
    && (forall t, u :: t in s.threads && u in s.threads && t != u && Builds(s.threads[t]).Some? ==>
          Builds(s.threads[t]) != Builds(s.threads[u]))
  }

  /** What a resolve is about to bind has what was asked for. */
  ghost predicate TargetCovers(t: Tables, pc: Pc) {
    pc.Reusing? || pc.Binding? || pc.Reactivating? ==> pc.env in t.envs && Covers(t.envs[pc.env].spec, pc.request)
  }

  ghost predicate TargetsCover(s: State) {
    forall t :: t in s.threads ==> TargetCovers(s.tables, s.threads[t])
  }

  ghost predicate Good(s: State) {
    Inv(s.tables) && BuildersAgree(s) && TargetsCover(s)
  }

  /** Environments are never dropped and keep their specs. */
  lemma SpecsStay(s: State, step: Step)
    requires Good(s) && Enabled(s, step)
    ensures forall id :: id in s.tables.envs ==>
              id in TablesAfter(s, step).envs && TablesAfter(s, step).envs[id].spec == s.tables.envs[id].spec
  {
    hide Indexed, AliasesSound, SingleBuilder, ReadyHasImage, BuildersAgree, TargetsCover;
  }

  lemma StepKeepsTables(s: State, step: Step)
    requires Good(s) && Enabled(s, step)
    ensures Inv(TablesAfter(s, step))
  {
    hide Inv;
    var t := s.tables;
    match step
    case Create(th, newId, now) => CreateKeeps(t, PcOf(s, th).request, newId, now);
    case React(th) => if Reactivate(t, PcOf(s, th).env).Some? { ReactivateKeeps(t, PcOf(s, th).env); }
    case BindTo(th) => BindKeeps(t, PcOf(s, th).request, PcOf(s, th).env);
    case ClaimJob(th, newJob) =>
      if Claim(t, PcOf(s, th).env, newJob).Some? { ClaimKeeps(t, PcOf(s, th).env, newJob); }
    case Verify(th) => MarkKeeps(t, PcOf(s, th).env, PcOf(s, th).job, VERIFYING, None);
    case Finish(th, image) =>
      MarkKeeps(t, PcOf(s, th).env, PcOf(s, th).job, if image.Some? then READY else FAILED, image);
    case Reset(th) => if ResetFailed(t, PcOf(s, th).env).Some? { ResetKeeps(t, PcOf(s, th).env); }
    case Retire(env) => if BeginRetirement(t, env).Some? { BeginRetirementKeeps(t, env); }
    case Cancel(env) => if CancelRetirement(t, env).Some? { CancelRetirementKeeps(t, env); }
    case Finalize(env) => FinalizeKeeps(t, env);
    case _ =>
  }

  /** Where the acting thread goes, it takes a target that covers its request. */
  lemma NewTargetCovers(s: State, step: Step)
    requires Good(s) && Enabled(s, step) && ByClient(step)
    ensures TargetCovers(TablesAfter(s, step), PcAfter(s, step))
  {
    hide BuildersAgree, Indexed, AliasesSound, SingleBuilder, ReadyHasImage, Covers;
    assert step.t in s.threads ==> TargetCovers(s.tables, s.threads[step.t]);
    if step.Create? {
      CreateKeeps(s.tables, PcOf(s, step.t).request, step.newId, step.now);
      CoversItself(PcOf(s, step.t).request);
    } else if step.React? {
      SpecsStay(s, step);
    }
  }

  lemma StepKeepsTargets(s: State, step: Step)
    requires Good(s) && Enabled(s, step)
    ensures TargetsCover(Next(s, step))
  {
    hide BuildersAgree, Inv, Covers, Enabled, TablesAfter, PcAfter;
    SpecsStay(s, step);
    if ByClient(step) { NewTargetCovers(s, step); }
    var n := Next(s, step);
    forall t | t in n.threads ensures TargetCovers(n.tables, n.threads[t]) {
      if !(ByClient(step) && t == step.t) { assert TargetCovers(s.tables, s.threads[t]); }
    }
  }

  /** Jobs change only in the hands of their builder. */
  lemma JobsStay(s: State, step: Step)
    requires BuildersAgree(s) && Enabled(s, step)
    ensures !step.ClaimJob? && !step.Verify? && !step.Finish? ==> TablesAfter(s, step).jobs == s.tables.jobs
  {}

  lemma StepKeepsBuilders(s: State, step: Step)
    requires Good(s) && Enabled(s, step)
    ensures BuildersAgree(Next(s, step))
  {
    hide Inv, TargetsCover, SmallestSuperset;
    JobsStay(s, step);
  }

  lemma StepKeeps(s: State, step: Step)
    requires Good(s) && Enabled(s, step)
    ensures Good(Next(s, step))
  {
    hide Inv, BuildersAgree, TargetsCover;
    StepKeepsTables(s, step);
    StepKeepsTargets(s, step);
    StepKeepsBuilders(s, step);
  }

  lemma {:induction false} EveryRun(s: State, steps: seq<Step>)
    requires Good(s) && Legal(s, steps)
    ensures Good(Execute(s, steps))
    decreases |steps|
  {
    if steps != [] {
      StepKeeps(s, steps[0]);
      EveryRun(Next(s, steps[0]), steps[1..]);
    }
  }

  const EMPTY: State := State(Tables(map[], map[], map[], map[]), map[])

  /** In every reachable state: every alias points to a not RETIRED environment that has
      what was asked for; an environment is BUILDING or VERIFYING exactly when it has
      one active job, never has two, and has none unless it is ACTIVE. */
  lemma Reachable(steps: seq<Step>, request: Spec, id: EnvId)
    requires Legal(EMPTY, steps)
    ensures var t := Execute(EMPTY, steps).tables;
            && (request in t.aliases ==>
                  && t.aliases[request] in t.envs
                  && t.envs[t.aliases[request]].lifecycle != RETIRED
                  && Covers(t.envs[t.aliases[request]].spec, request))
            && (id in t.envs ==>
                  && (Working(t.envs[id].status) <==> |ActiveJobs(t, id)| == 1)
                  && |ActiveJobs(t, id)| <= 1
                  && (t.envs[id].lifecycle != ACTIVE ==> ActiveJobs(t, id) == {}))
  {
    EveryRun(EMPTY, steps);
    var t := Execute(EMPTY, steps).tables;
    if id in t.envs { OneActiveJob(t, id); }
  }

  /** Whatever clients do, a RETIRING environment stays RETIRING and unbuilt. */
  lemma ClientsLeaveRetiring(s: State, step: Step, id: EnvId)
    requires Good(s) && Enabled(s, step) && ByClient(step)
    requires id in s.tables.envs && s.tables.envs[id].lifecycle == RETIRING
    ensures var n := Next(s, step).tables;
            && id in n.envs && n.envs[id].lifecycle == RETIRING
            && n.envs[id].spec == s.tables.envs[id].spec && ActiveJobs(n, id) == {}
  {
    StepKeeps(s, step);
    SpecsStay(s, step);
    RetiringStays(s, step, id);
    OneActiveJob(Next(s, step).tables, id);
  }

  lemma RetiringStays(s: State, step: Step, id: EnvId)
    requires Good(s) && Enabled(s, step) && ByClient(step)
    requires id in s.tables.envs && s.tables.envs[id].lifecycle == RETIRING
    ensures id in TablesAfter(s, step).envs && TablesAfter(s, step).envs[id].lifecycle == RETIRING
  {
    hide Indexed, AliasesSound, SingleBuilder, ReadyHasImage, BuildersAgree, TargetsCover, ActiveJobs;
  }

  /** RETIRING and PENDING: it looks blocked by build work although it has no job and can
      get none. */
  predicate Stuck(t: Tables, id: EnvId) {
    id in t.envs && t.envs[id].lifecycle == RETIRING && t.envs[id].status == PENDING
  }

  lemma StuckHasNoJob(t: Tables, id: EnvId, job: JobId)
    requires Inv(t) && Stuck(t, id)
    ensures ActiveJobs(t, id) == {} && Claim(t, id, job) == None
  {
    OneActiveJob(t, id);
  }

  /** The reset of a retry gets an environment stuck exactly when it has become RETIRING
      since the retry read it; no other step does. */
  lemma RetryRacesRetirement(s: State, step: Step, id: EnvId)
    requires Good(s) && Enabled(s, step) && !Stuck(s.tables, id)
    ensures Stuck(Next(s, step).tables, id) <==>
            && step.Reset? && PcOf(s, step.t).env == id && id in s.tables.envs
            && s.tables.envs[id].status == FAILED && s.tables.envs[id].lifecycle == RETIRING
  {
    hide Indexed, AliasesSound, ReadyHasImage, TargetsCover, SmallestSuperset;
    if step.Verify? || step.Finish? {
      assert ActiveFor(s.tables, PcOf(s, step.t).job);
    }
  }

  lemma Prepended(s: State, step: Step, rest: seq<Step>)
    requires Enabled(s, step) && Legal(Next(s, step), rest)
    ensures Legal(s, [step] + rest) && Execute(s, [step] + rest) == Execute(Next(s, step), rest)
  {
    assert ([step] + rest)[1..] == rest;
  }

  /** The environment's table with the spec bound to it. */
  function Alone(spec: Spec, id: EnvId, job: JobId, status: Status, lifecycle: Lifecycle): Tables {
    Tables(map[id := Env(spec, status, lifecycle, None, 0)], map[spec := id], map[spec := id],
           map[job := Job(id, FAILED)])
  }

  /** From the start: a build fails, a retry reads that, the retirement begins, the retry resets. */
  lemma StuckIsReachable(spec: Spec, id: EnvId, job: JobId)
    ensures exists steps :: Legal(EMPTY, steps) && Stuck(Execute(EMPTY, steps).tables, id)
  {
    var tail := [Retry(0, spec)] + ([Retire(id)] + ([Reset(0)] + []));
    FailedThenRaced(spec, id, job);
    var steps := FirstBuildFails(spec, id, job, tail);
    assert Stuck(Execute(EMPTY, steps).tables, id);
  }

  lemma FailedThenRaced(spec: Spec, id: EnvId, job: JobId)
    ensures var failed := State(Alone(spec, id, job, FAILED, ACTIVE), map[0 := Idle]);
            var tail := [Retry(0, spec)] + ([Retire(id)] + ([Reset(0)] + []));
            Legal(failed, tail) && Stuck(Execute(failed, tail).tables, id)
  {
    var failed := State(Alone(spec, id, job, FAILED, ACTIVE), map[0 := Idle]);
    var read := failed.(threads := map[0 := Resetting(spec, id)]);
    var retiring := read.(tables := Alone(spec, id, job, FAILED, RETIRING));
    assert Next(failed, Retry(0, spec)) == read;
    assert ActiveJobs(read.tables, id) == {};
    assert Next(read, Retire(id)) == retiring;
    Prepended(retiring, Reset(0), []);
    Prepended(read, Retire(id), [Reset(0)] + []);
    Prepended(failed, Retry(0, spec), [Retire(id)] + ([Reset(0)] + []));
  }

  /** Created and bound, about to be claimed. */
  function AboutToClaim(spec: Spec, id: EnvId): State {
    State(Tables(map[id := Env(spec, PENDING, ACTIVE, None, 0)], map[spec := id], map[spec := id], map[]),
          map[0 := Claiming(spec, id)])
  }

  lemma ClaimedBuildFails(spec: Spec, id: EnvId, job: JobId, tail: seq<Step>) returns (steps: seq<Step>)
    requires Legal(State(Alone(spec, id, job, FAILED, ACTIVE), map[0 := Idle]), tail)
    ensures Legal(AboutToClaim(spec, id), steps)
    ensures Execute(AboutToClaim(spec, id), steps)
            == Execute(State(Alone(spec, id, job, FAILED, ACTIVE), map[0 := Idle]), tail)
  {
    var building := State(Tables(map[id := Env(spec, BUILDING, ACTIVE, None, 0)], map[spec := id], map[spec := id],
                                 map[job := Job(id, BUILDING)]),
                          map[0 := Building(id, job)]);
    assert Next(AboutToClaim(spec, id), ClaimJob(0, job)) == building;
    assert Next(building, Finish(0, None)) == State(Alone(spec, id, job, FAILED, ACTIVE), map[0 := Idle]);
    Prepended(building, Finish(0, None), tail);
    steps := [Finish(0, None)] + tail;
    Prepended(AboutToClaim(spec, id), ClaimJob(0, job), steps);
    steps := [ClaimJob(0, job)] + steps;
  }

  lemma FirstBuildFails(spec: Spec, id: EnvId, job: JobId, tail: seq<Step>) returns (steps: seq<Step>)
    requires Legal(State(Alone(spec, id, job, FAILED, ACTIVE), map[0 := Idle]), tail)
    ensures Legal(EMPTY, steps)
    ensures Execute(EMPTY, steps) == Execute(State(Alone(spec, id, job, FAILED, ACTIVE), map[0 := Idle]), tail)
  {
    steps := ClaimedBuildFails(spec, id, job, tail);
    var s1 := State(EMPTY.tables, map[0 := Choosing(spec)]);
    var s2 := State(EMPTY.tables, map[0 := Creating(spec)]);
    var s3 := State(AboutToClaim(spec, id).tables.(aliases := map[]), map[0 := Binding(spec, id, true)]);
    assert Next(EMPTY, Resolve(0, spec)) == s1 && Next(s1, Choose(0, None)) == s2;
    assert Next(s2, Create(0, id, 0)) == s3 && Next(s3, BindTo(0)) == AboutToClaim(spec, id);
    Prepended(s3, BindTo(0), steps);
    steps := [BindTo(0)] + steps;
    Prepended(s2, Create(0, id, 0), steps);
    steps := [Create(0, id, 0)] + steps;
    Prepended(s1, Choose(0, None), steps);
    steps := [Choose(0, None)] + steps;
    Prepended(EMPTY, Resolve(0, spec), steps);
    steps := [Resolve(0, spec)] + steps;
  }
}
