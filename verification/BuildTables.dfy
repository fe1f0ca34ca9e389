/** The Build service's tables: environments, request aliases and build jobs, with one
    function per database transaction. */
module BuildTables {
  import opened Wrappers
  type EnvId = string
  type JobId = string

  /** What an environment key is the digest of; equal keys are equal specs. */
  datatype Spec = Spec(base: string, python: string, platform: string, policy: string,
                       lock: string, packages: map<string, string>)

  datatype Status = PENDING | BUILDING | VERIFYING | READY | FAILED
  datatype Lifecycle = ACTIVE | RETIRING | RETIRED

  datatype Env = Env(spec: Spec, status: Status, lifecycle: Lifecycle, image: Option<string>, createdAt: int)
  datatype Job = Job(env: EnvId, status: Status)

  datatype Tables = Tables(
    envs: map<EnvId, Env>,
    byKey: map<Spec, EnvId>,        // the unique index on env_key
    aliases: map<Spec, EnvId>,
    jobs: map<JobId, Job>)

  datatype Created = Exact(env: EnvId) | Retired(env: EnvId) | BeingRetired
  datatype Bound = Accepted | UnknownEnv | NotActive

  /** An environment that has what a request asks for. */
  predicate Covers(env: Spec, request: Spec) {
    && env.base == request.base && env.python == request.python
    && env.platform == request.platform && env.policy == request.policy
    && (forall p :: p in request.packages ==> p in env.packages && env.packages[p] == request.packages[p])
  }

  lemma CoversItself(spec: Spec)
    ensures Covers(spec, spec)
  {}

  predicate Working(status: Status) { status == BUILDING || status == VERIFYING }

  function ActiveJobs(t: Tables, id: EnvId): set<JobId> {
    set j | j in t.jobs && t.jobs[j].env == id && Working(t.jobs[j].status)
  }

  function GetForRequest(t: Tables, request: Spec): Option<EnvId> {
    if request in t.aliases && t.aliases[request] in t.envs && t.envs[t.aliases[request]].lifecycle == ACTIVE
    then Some(t.aliases[request]) else None
  }

  predicate Eligible(t: Tables, request: Spec, id: EnvId) {
    id in t.envs && t.envs[id].status == READY && t.envs[id].lifecycle == ACTIVE && Covers(t.envs[id].spec, request)
  }

  /** Fewer packages first, then older. */
  predicate Before(a: Env, b: Env) {
    |a.spec.packages| < |b.spec.packages| || (|a.spec.packages| == |b.spec.packages| && a.createdAt <= b.createdAt)
  }

  ghost predicate SmallestSuperset(t: Tables, request: Spec, id: EnvId) {
    Eligible(t, request, id) && forall other :: Eligible(t, request, other) ==> Before(t.envs[id], t.envs[other])
  }

  function CreateExact(t: Tables, spec: Spec, newId: EnvId, now: int): (Tables, Created) {
    if spec !in t.byKey || t.byKey[spec] !in t.envs then
      (t.(envs := t.envs[newId := Env(spec, PENDING, ACTIVE, None, now)], byKey := t.byKey[spec := newId]),
       Exact(newId))
    else
      var id := t.byKey[spec];
      match t.envs[id].lifecycle
      case ACTIVE => (t, Exact(id))
      case RETIRING => (t, BeingRetired)
      case RETIRED => (t, Retired(id))
  }

  function WithEnv(t: Tables, id: EnvId, env: Env): Tables { t.(envs := t.envs[id := env]) }

  function Reactivate(t: Tables, id: EnvId): Option<Tables> {
    if id in t.envs && t.envs[id].lifecycle == RETIRED
    then Some(WithEnv(t, id, t.envs[id].(lifecycle := ACTIVE, status := PENDING, image := None)))
    else None
  }

  /** A request keeps the environment it was first bound to. */
  function Bind(t: Tables, request: Spec, id: EnvId): (Tables, Bound) {
    if id !in t.envs then (t, UnknownEnv)
    else if t.envs[id].lifecycle != ACTIVE then (t, NotActive)
    else (if request in t.aliases then t else t.(aliases := t.aliases[request := id]), Accepted)
  }

  function Claim(t: Tables, id: EnvId, newId: JobId): Option<Tables> {
    if id in t.envs && t.envs[id].status == PENDING && t.envs[id].lifecycle == ACTIVE
    then Some(WithEnv(t, id, t.envs[id].(status := BUILDING)).(jobs := t.jobs[newId := Job(id, BUILDING)]))
    else None
  }

  /** mark_verifying, mark_ready and mark_failed look at neither status nor lifecycle. */
  function Mark(t: Tables, id: EnvId, job: JobId, status: Status, image: Option<string>): Tables {
    t.(envs := if id in t.envs
               then t.envs[id := t.envs[id].(status := status,
                                             image := if status == READY then image else t.envs[id].image)]
               else t.envs,
       jobs := if job in t.jobs then t.jobs[job := t.jobs[job].(status := status)] else t.jobs)
  }

  function ResetFailed(t: Tables, id: EnvId): Option<Tables> {
    if id in t.envs && t.envs[id].status == FAILED
    then Some(WithEnv(t, id, t.envs[id].(status := PENDING, image := None))) else None
  }

  function BeginRetirement(t: Tables, id: EnvId): Option<Tables> {
    if id in t.envs && t.envs[id].lifecycle == ACTIVE && t.envs[id].status !in {PENDING, BUILDING, VERIFYING}
       && ActiveJobs(t, id) == {}
    then Some(WithEnv(t, id, t.envs[id].(lifecycle := RETIRING))) else None
  }

  function CancelRetirement(t: Tables, id: EnvId): Option<Tables> {
    if id in t.envs && t.envs[id].lifecycle == RETIRING
    then Some(WithEnv(t, id, t.envs[id].(lifecycle := ACTIVE))) else None
  }

  function Unbind(t: Tables, id: EnvId): Tables {
    t.(aliases := map k | k in t.aliases && t.aliases[k] != id :: t.aliases[k])
  }

  /** The aliases go even when the environment turns out not to be RETIRING. */
  function FinalizeRetirement(t: Tables, id: EnvId): Tables {
    if id in t.envs && t.envs[id].lifecycle == RETIRING
    then WithEnv(Unbind(t, id), id, t.envs[id].(lifecycle := RETIRED)) else Unbind(t, id)
  }

  // ----- invariants

  ghost predicate Indexed(t: Tables) {
    && (forall k :: k in t.byKey ==> t.byKey[k] in t.envs && t.envs[t.byKey[k]].spec == k)
    && (forall id :: id in t.envs ==> t.envs[id].spec in t.byKey && t.byKey[t.envs[id].spec] == id)
  }

  /** An alias points to an environment, not RETIRED, that has what was asked for. */
  ghost predicate AliasesSound(t: Tables) {
    forall k :: k in t.aliases ==>
      t.aliases[k] in t.envs && t.envs[t.aliases[k]].lifecycle != RETIRED && Covers(t.envs[t.aliases[k]].spec, k)
  }

  /** Being built is the same as having an active job; that job is the only one, agrees
      with the environment's status, and the environment is ACTIVE. */
  ghost predicate SingleBuilder(t: Tables) {
    && (forall j :: j in t.jobs && Working(t.jobs[j].status) ==>
          t.jobs[j].env in t.envs && t.envs[t.jobs[j].env].status == t.jobs[j].status
          && t.envs[t.jobs[j].env].lifecycle == ACTIVE)
    && (forall i, j :: ActiveFor(t, i) && ActiveFor(t, j) && t.jobs[i].env == t.jobs[j].env ==> i == j)
    && (forall id :: id in t.envs && Working(t.envs[id].status) ==> HasJob(t, id))
  }

  predicate ActiveFor(t: Tables, j: JobId) { j in t.jobs && Working(t.jobs[j].status) }

  ghost predicate HasJob(t: Tables, id: EnvId) {
    exists j :: ActiveFor(t, j) && t.jobs[j].env == id
  }

  ghost predicate ReadyHasImage(t: Tables) {
    forall id :: id in t.envs && t.envs[id].status == READY ==> t.envs[id].image.Some?
  }

  ghost predicate Inv(t: Tables) {
    Indexed(t) && AliasesSound(t) && SingleBuilder(t) && ReadyHasImage(t)
  }

  /** The single-builder property by counting. */
  lemma OneActiveJob(t: Tables, id: EnvId)
    requires Inv(t) && id in t.envs
    ensures Working(t.envs[id].status) <==> |ActiveJobs(t, id)| == 1
    ensures |ActiveJobs(t, id)| <= 1
    ensures t.envs[id].lifecycle != ACTIVE ==> ActiveJobs(t, id) == {}
  {
    var jobs := ActiveJobs(t, id);
    if jobs != {} {
      var j :| j in jobs;
      assert jobs == {j} by { forall i | i in jobs ensures i == j { assert ActiveFor(t, i) && ActiveFor(t, j); } }
    }
    if Working(t.envs[id].status) {
      var j :| ActiveFor(t, j) && t.jobs[j].env == id;
      assert j in jobs;
    }
  }

  /** Changes that leave every environment being built alone. */
  lemma BuildersLeftAlone(t: Tables, n: Tables)
    requires SingleBuilder(t) && n.jobs == t.jobs
    requires forall id :: id in t.envs && Working(t.envs[id].status) ==>
               id in n.envs && n.envs[id].status == t.envs[id].status && n.envs[id].lifecycle == t.envs[id].lifecycle
    requires forall id :: id in n.envs && Working(n.envs[id].status) ==> id in t.envs && Working(t.envs[id].status)
    ensures SingleBuilder(n)
  {
    forall id | id in n.envs && Working(n.envs[id].status) ensures HasJob(n, id) {
      var j :| ActiveFor(t, j) && t.jobs[j].env == id;
      assert ActiveFor(n, j);
    }
    forall i, j | ActiveFor(n, i) && ActiveFor(n, j) && n.jobs[i].env == n.jobs[j].env ensures i == j {
      assert ActiveFor(t, i) && ActiveFor(t, j);
    }
  }

  lemma CreateKeeps(t: Tables, spec: Spec, newId: EnvId, now: int)
    requires Inv(t) && newId !in t.envs
    ensures var (n, made) := CreateExact(t, spec, newId, now);
            && Inv(n)
            && (made.Exact? || made.Retired? ==> made.env in n.envs && n.envs[made.env].spec == spec)
  {
    hide Indexed, SingleBuilder, AliasesSound, ReadyHasImage;
    IndexFinds(t, spec);
    if spec !in t.byKey {
      NewEnvKeeps(t, newId, Env(spec, PENDING, ACTIVE, None, now));
      BuildersLeftAlone(t, CreateExact(t, spec, newId, now).0);
    }
  }

  lemma IndexFinds(t: Tables, spec: Spec)
    requires Indexed(t)
    ensures spec in t.byKey ==> t.byKey[spec] in t.envs && t.envs[t.byKey[spec]].spec == spec
  {}

  lemma NewEnvKeeps(t: Tables, id: EnvId, env: Env)
    requires Indexed(t) && AliasesSound(t) && ReadyHasImage(t)
    requires id !in t.envs && env.spec !in t.byKey && env.status != READY
    ensures var n := t.(envs := t.envs[id := env], byKey := t.byKey[env.spec := id]);
            Indexed(n) && AliasesSound(n) && ReadyHasImage(n)
  {
    hide Covers;
    var n := t.(envs := t.envs[id := env], byKey := t.byKey[env.spec := id]);
    assert Indexed(n) by { hide AliasesSound, ReadyHasImage; }
    assert AliasesSound(n) by { hide Indexed, ReadyHasImage; }
  }

  lemma BindKeeps(t: Tables, request: Spec, id: EnvId)
    requires Inv(t) && (id in t.envs ==> Covers(t.envs[id].spec, request))
    ensures Inv(Bind(t, request, id).0)
    ensures Bind(t, request, id).1 == Accepted ==> request in Bind(t, request, id).0.aliases
  {
    hide SingleBuilder, Covers;
    BuildersLeftAlone(t, Bind(t, request, id).0);
  }

  /** Other changes of one environment keep the index, the aliases and the images. */
  lemma OneEnvKeeps(t: Tables, id: EnvId, env: Env)
    requires Inv(t) && id in t.envs && env.spec == t.envs[id].spec
    requires env.lifecycle == RETIRED ==> forall k :: k in t.aliases ==> t.aliases[k] != id
    requires env.status == READY ==> env.image.Some?
    ensures var n := WithEnv(t, id, env); Indexed(n) && AliasesSound(n) && ReadyHasImage(n)
  {
    hide SingleBuilder, Covers;
    var n := WithEnv(t, id, env);
    assert Indexed(n) by { hide AliasesSound, ReadyHasImage; }
    assert AliasesSound(n) by { hide Indexed, ReadyHasImage; }
  }

  lemma ClaimKeeps(t: Tables, id: EnvId, newId: JobId)
    requires Inv(t) && newId !in t.jobs && Claim(t, id, newId).Some?
    ensures Inv(Claim(t, id, newId).value)
  {
    hide Indexed, AliasesSound, ReadyHasImage, SingleBuilder;
    ClaimKeepsBuilder(t, id, newId);
    OneEnvKeeps(t, id, t.envs[id].(status := BUILDING));
    SameButJobs(WithEnv(t, id, t.envs[id].(status := BUILDING)), Claim(t, id, newId).value);
  }

  lemma ClaimKeepsBuilder(t: Tables, id: EnvId, newId: JobId)
    requires SingleBuilder(t) && newId !in t.jobs && Claim(t, id, newId).Some?
    ensures SingleBuilder(Claim(t, id, newId).value)
  {
    var n := Claim(t, id, newId).value;
    forall e | e in n.envs && Working(n.envs[e].status) ensures HasJob(n, e) {
      if e == id { assert ActiveFor(n, newId); }
      else { var j :| ActiveFor(t, j) && t.jobs[j].env == e; assert ActiveFor(n, j); }
    }
    forall i, j | ActiveFor(n, i) && ActiveFor(n, j) && n.jobs[i].env == n.jobs[j].env ensures i == j {
      if i != newId { assert ActiveFor(t, i); }
      if j != newId { assert ActiveFor(t, j); }
    }
  }

  lemma SameButJobs(t: Tables, n: Tables)
    requires n.envs == t.envs && n.byKey == t.byKey && n.aliases == t.aliases
    ensures Indexed(t) ==> Indexed(n)
    ensures AliasesSound(t) ==> AliasesSound(n)
    ensures ReadyHasImage(t) ==> ReadyHasImage(n)
  {}

  /** A builder may mark only what its own active job stands for. */
  lemma MarkKeeps(t: Tables, id: EnvId, job: JobId, status: Status, image: Option<string>)
    requires Inv(t) && ActiveFor(t, job) && t.jobs[job].env == id
    requires status in {VERIFYING, READY, FAILED} && (status == READY ==> image.Some?)
    ensures Inv(Mark(t, id, job, status, image))
  {
    hide Indexed, AliasesSound, ReadyHasImage, SingleBuilder, ActiveFor;
    var n := Mark(t, id, job, status, image);
    MarkKeepsBuilder(t, id, job, status, image);
    OneEnvKeeps(t, id, n.envs[id]);
    SameButJobs(WithEnv(t, id, n.envs[id]), n);
  }

  lemma MarkKeepsBuilder(t: Tables, id: EnvId, job: JobId, status: Status, image: Option<string>)
    requires SingleBuilder(t) && ActiveFor(t, job) && t.jobs[job].env == id
    requires status in {VERIFYING, READY, FAILED}
    ensures id in t.envs && t.envs[id].lifecycle == ACTIVE && SingleBuilder(Mark(t, id, job, status, image))
  {
    var n := Mark(t, id, job, status, image);
    forall e | e in n.envs && Working(n.envs[e].status) ensures HasJob(n, e) {
      var j :| ActiveFor(t, j) && t.jobs[j].env == e;
      assert ActiveFor(t, j) && ActiveFor(t, job);
      assert ActiveFor(n, j);
    }
    forall i, j | ActiveFor(n, i) && ActiveFor(n, j) && n.jobs[i].env == n.jobs[j].env ensures i == j {
      assert ActiveFor(t, i) && ActiveFor(t, j);
    }
  }

  /** Changes of one environment that is not being built. */
  lemma IdleEnvKeeps(t: Tables, id: EnvId, env: Env)
    requires Inv(t) && id in t.envs && !Working(t.envs[id].status) && !Working(env.status)
    requires env.spec == t.envs[id].spec
    requires env.lifecycle == RETIRED ==> forall k :: k in t.aliases ==> t.aliases[k] != id
    requires env.status == READY ==> env.image.Some?
    ensures Inv(WithEnv(t, id, env))
  {
    hide Indexed, AliasesSound, ReadyHasImage;
    OneEnvKeeps(t, id, env);
    BuildersLeftAlone(t, WithEnv(t, id, env));
  }

  /** An environment that is not ACTIVE is not being built. */
  lemma InactiveIsIdle(t: Tables, id: EnvId)
    requires Inv(t) && id in t.envs && t.envs[id].lifecycle != ACTIVE
    ensures !Working(t.envs[id].status)
  {}

  lemma ReactivateKeeps(t: Tables, id: EnvId)
    requires Inv(t) && Reactivate(t, id).Some?
    ensures Inv(Reactivate(t, id).value)
  {
    InactiveIsIdle(t, id);
    IdleEnvKeeps(t, id, t.envs[id].(lifecycle := ACTIVE, status := PENDING, image := None));
  }

  lemma ResetKeeps(t: Tables, id: EnvId)
    requires Inv(t) && ResetFailed(t, id).Some?
    ensures Inv(ResetFailed(t, id).value)
  {
    IdleEnvKeeps(t, id, t.envs[id].(status := PENDING, image := None));
  }

  lemma BeginRetirementKeeps(t: Tables, id: EnvId)
    requires Inv(t) && BeginRetirement(t, id).Some?
    ensures Inv(BeginRetirement(t, id).value)
  {
    IdleEnvKeeps(t, id, t.envs[id].(lifecycle := RETIRING));
  }

  lemma CancelRetirementKeeps(t: Tables, id: EnvId)
    requires Inv(t) && CancelRetirement(t, id).Some?
    ensures Inv(CancelRetirement(t, id).value)
  {
    InactiveIsIdle(t, id);
    IdleEnvKeeps(t, id, t.envs[id].(lifecycle := ACTIVE));
  }

  lemma UnbindKeeps(t: Tables, id: EnvId)
    requires Inv(t)
    ensures Inv(Unbind(t, id))
  {
    hide Covers, SingleBuilder;
    BuildersLeftAlone(t, Unbind(t, id));
  }

  lemma FinalizeKeeps(t: Tables, id: EnvId)
    requires Inv(t)
    ensures Inv(FinalizeRetirement(t, id))
  {
    UnbindKeeps(t, id);
    if id in t.envs && t.envs[id].lifecycle == RETIRING {
      InactiveIsIdle(t, id);
      hide Inv;
      IdleEnvKeeps(Unbind(t, id), id, t.envs[id].(lifecycle := RETIRED));
    }
  }

  /** Retirement can begin exactly for an ACTIVE environment that is READY or FAILED: the
      separate look at the jobs never decides. */
  lemma RetirementCondition(t: Tables, id: EnvId)
    requires Inv(t)
    ensures BeginRetirement(t, id).Some? <==>
            id in t.envs && t.envs[id].lifecycle == ACTIVE && (t.envs[id].status.READY? || t.envs[id].status.FAILED?)
  {
    if id in t.envs { OneActiveJob(t, id); }
  }

  /** A request once bound keeps its environment until that is finalized. */
  lemma BoundForGood(t: Tables, request: Spec, id: EnvId, other: EnvId)
    requires Inv(t) && request in t.aliases && t.aliases[request] == id
    ensures Bind(t, request, other).0 == t
    ensures request in FinalizeRetirement(t, other).aliases <==> other != id
  {}

  /** What a request is answered with has what it asked for. */
  lemma AnswerCovers(t: Tables, request: Spec)
    requires Inv(t) && GetForRequest(t, request).Some?
    ensures var id := GetForRequest(t, request).value;
            id in t.envs && t.envs[id].lifecycle == ACTIVE && Covers(t.envs[id].spec, request)
  {}

  /** A request without an answer that was bound before: its environment is being retired,
      and binding it again leaves it without an answer. */
  lemma BoundElsewhere(t: Tables, request: Spec)
    requires Inv(t) && GetForRequest(t, request).None? && request in t.aliases
    ensures t.aliases[request] in t.envs && t.envs[t.aliases[request]].lifecycle == RETIRING
    ensures forall id :: GetForRequest(Bind(t, request, id).0, request).None?
  {}

  /** A retirement that begins can be undone without a trace; meanwhile nobody is answered with
      the environment and nobody can be bound to it. */
  lemma RetirementUndone(t: Tables, id: EnvId, request: Spec)
    requires BeginRetirement(t, id).Some?
    ensures var n := BeginRetirement(t, id).value;
            && CancelRetirement(n, id) == Some(t)
            && GetForRequest(n, request) != Some(id) && !Eligible(n, request, id)
            && Bind(n, request, id) == (n, NotActive)
            && (GetForRequest(t, request) != Some(id) ==> GetForRequest(n, request) == GetForRequest(t, request))
  {
    var env, n := t.envs[id], BeginRetirement(t, id).value;
    assert t.envs[id := env.(lifecycle := RETIRING)][id := env] == t.envs;
    assert CancelRetirement(n, id) == Some(WithEnv(n, id, env));
  }

  /** A retry is for FAILED environments alone; it makes them wait for a build like new ones,
      which an ACTIVE one then gets. */
  lemma RetryCanBuild(t: Tables, id: EnvId, job: JobId)
    ensures ResetFailed(t, id).Some? <==> id in t.envs && t.envs[id].status == FAILED
    ensures ResetFailed(t, id).Some? ==>
              var n := ResetFailed(t, id).value;
              && n.envs.Keys == t.envs.Keys && n.envs - {id} == t.envs - {id}
              && n.envs[id] == Env(t.envs[id].spec, PENDING, t.envs[id].lifecycle, None, t.envs[id].createdAt)
              && n.aliases == t.aliases && n.jobs == t.jobs && n.byKey == t.byKey
              && (Claim(n, id, job).Some? <==> t.envs[id].lifecycle == ACTIVE)
  {}

  /** What can be reused is READY, so has an image, and ACTIVE, was made for the same base,
      Python, platform and policy, and locks every package to the version asked for. */
  lemma EligibleExactly(t: Tables, request: Spec, id: EnvId)
    requires Inv(t)
    ensures Eligible(t, request, id) <==>
            && id in t.envs && t.envs[id].status == READY && t.envs[id].lifecycle == ACTIVE
            && request.packages.Items <= t.envs[id].spec.packages.Items
            && t.envs[id].spec == request.(lock := t.envs[id].spec.lock, packages := t.envs[id].spec.packages)
    ensures Eligible(t, request, id) ==> t.envs[id].image.Some?
  {
    hide Indexed, AliasesSound, SingleBuilder;
    if id in t.envs && Covers(t.envs[id].spec, request) {
      forall kv | kv in request.packages.Items ensures kv in t.envs[id].spec.packages.Items {
        assert kv.0 in request.packages && request.packages[kv.0] == kv.1;
      }
    }
    if id in t.envs && request.packages.Items <= t.envs[id].spec.packages.Items {
      forall p | p in request.packages
        ensures p in t.envs[id].spec.packages && t.envs[id].spec.packages[p] == request.packages[p]
      {
        assert (p, request.packages[p]) in request.packages.Items;
      }
    }
  }
}
