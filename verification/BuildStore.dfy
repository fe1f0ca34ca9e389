/** The Build service's store, one method per transaction, and the two operations that
    drive it. */
module BuildStore {
  import opened Wrappers
  import opened BuildTables

  class LifecycleBuildStore {
    var envs: map<EnvId, Env>
    var byKey: map<Spec, EnvId>
    var aliases: map<Spec, EnvId>
    var jobs: map<JobId, Job>

    function Contents(): Tables reads this {
      Tables(envs, byKey, aliases, jobs)
    }

    constructor ()
      ensures Contents() == Tables(map[], map[], map[], map[]) && Inv(Contents())
    {
      envs, byKey, aliases, jobs := map[], map[], map[], map[];
    }

    method Lookup(request: Spec) returns (found: Option<EnvId>)
      ensures found == GetForRequest(Contents(), request)
    {
      if request in aliases && aliases[request] in envs && envs[aliases[request]].lifecycle == ACTIVE {
        found := Some(aliases[request]);
      } else {
        found := None;
      }
    }

    /** The best READY and ACTIVE superset, if there is one. */
    method FindSmallestSuperset(request: Spec) returns (best: Option<EnvId>)
      ensures best.None? <==> forall id :: !Eligible(Contents(), request, id)
      ensures best.Some? ==> SmallestSuperset(Contents(), request, best.value)
    {
      best := None;
      var left := envs.Keys;
      while left != {}
        invariant left <= envs.Keys
        invariant best.None? ==> forall id :: Eligible(Contents(), request, id) ==> id in left
        invariant best.Some? ==>
                    && Eligible(Contents(), request, best.value)
                    && forall id :: Eligible(Contents(), request, id) && id !in left ==>
                                    Before(envs[best.value], envs[id])
        decreases left
      {
        var id :| id in left;
        left := left - {id};
        if Eligible(Contents(), request, id) && (best.None? || !Before(envs[best.value], envs[id])) {
          best := Some(id);
        }
      }
    }

    method GetOrCreateExact(spec: Spec, newId: EnvId, now: int) returns (made: Created)
      modifies this
      ensures (Contents(), made) == CreateExact(old(Contents()), spec, newId, now)
    {
      if spec !in byKey || byKey[spec] !in envs {
        envs, byKey := envs[newId := Env(spec, PENDING, ACTIVE, None, now)], byKey[spec := newId];
        return Exact(newId);
      }
      var id := byKey[spec];
      match envs[id].lifecycle {
        case ACTIVE => made := Exact(id);
        case RETIRING => made := BeingRetired;
        case RETIRED => made := Retired(id);
      }
    }

    method ReactivateRetired(id: EnvId) returns (ok: bool)
      modifies this
      ensures ok == Reactivate(old(Contents()), id).Some?
      ensures Contents() == if ok then Reactivate(old(Contents()), id).value else old(Contents())
    {
      ok := id in envs && envs[id].lifecycle == RETIRED;
      if ok { envs := envs[id := envs[id].(lifecycle := ACTIVE, status := PENDING, image := None)]; }
    }

    method BindRequest(request: Spec, id: EnvId) returns (bound: Bound)
      modifies this
      ensures (Contents(), bound) == Bind(old(Contents()), request, id)
    {
      if id !in envs { return UnknownEnv; }
      if envs[id].lifecycle != ACTIVE { return NotActive; }
      if request !in aliases { aliases := aliases[request := id]; }
      bound := Accepted;
    }

    method ClaimBuild(id: EnvId, newJob: JobId) returns (ok: bool)
      modifies this
      ensures ok == Claim(old(Contents()), id, newJob).Some?
      ensures Contents() == if ok then Claim(old(Contents()), id, newJob).value else old(Contents())
    {
      ok := id in envs && envs[id].status == PENDING && envs[id].lifecycle == ACTIVE;
      if ok {
        envs := envs[id := envs[id].(status := BUILDING)];
        jobs := jobs[newJob := Job(id, BUILDING)];
      }
    }

    method MarkJob(id: EnvId, job: JobId, status: Status, image: Option<string>)
      modifies this
      ensures Contents() == Mark(old(Contents()), id, job, status, image)
    {
      if id in envs {
        envs := envs[id := envs[id].(status := status)];
        if status == READY { envs := envs[id := envs[id].(image := image)]; }
      }
      if job in jobs { jobs := jobs[job := jobs[job].(status := status)]; }
    }

    method Retire(id: EnvId) returns (ok: bool)
      modifies this
      ensures ok == BeginRetirement(old(Contents()), id).Some?
      ensures Contents() == if ok then BeginRetirement(old(Contents()), id).value else old(Contents())
    {
      ghost var t := Contents();
      if id !in envs || envs[id].lifecycle != ACTIVE || envs[id].status in {PENDING, BUILDING, VERIFYING} {
        return false;
      }
      var working := set j | j in jobs && jobs[j].env == id && jobs[j].status in {BUILDING, VERIFYING};
      assert working == ActiveJobs(t, id);
      ok := working == {};
      if ok { envs := envs[id := envs[id].(lifecycle := RETIRING)]; }
    }

    method Finalize(id: EnvId)
      modifies this
      ensures Contents() == FinalizeRetirement(old(Contents()), id)
    {
      aliases := map k | k in aliases && aliases[k] != id :: aliases[k];
      if id in envs && envs[id].lifecycle == RETIRING { envs := envs[id := envs[id].(lifecycle := RETIRED)]; }
    }

    /** Claim, build, verify, and record how it went. */
    method Build(request: Spec, id: EnvId, newJob: JobId, image: Option<string>) returns (found: Option<EnvId>)
      requires Inv(Contents()) && newJob !in jobs
      modifies this
      ensures Inv(Contents()) && found == GetForRequest(Contents(), request)
      ensures byKey == old(byKey) && aliases == old(aliases) && OthersKept(old(envs), id)
      ensures old(Pending(id)) ==> BuiltNow(old(envs), id, image)
      ensures !old(Pending(id)) ==> envs == old(envs) && jobs == old(jobs)
    {
      hide Inv;
      ghost var start := Contents();
      var claimed := ClaimBuild(id, newJob);
      if claimed {
        ClaimKeeps(start, id, newJob);
        Record(id, newJob, image);
      }
      found := Lookup(request);
    }

    /** How the build and its verification went, for the job that claimed it. */
    method Record(id: EnvId, job: JobId, image: Option<string>)
      requires Inv(Contents()) && ActiveFor(Contents(), job) && jobs[job].env == id
      requires id in envs && envs[id].lifecycle == ACTIVE
      modifies this
      ensures Inv(Contents()) && byKey == old(byKey) && aliases == old(aliases) && OthersKept(old(envs), id)
      ensures BuiltNow(old(envs), id, image)
    {
      hide Inv;
      if image.Some? {
        MarkKeeps(Contents(), id, job, VERIFYING, None);
        MarkJob(id, job, VERIFYING, None);
      }
      MarkKeeps(Contents(), id, job, if image.Some? then READY else FAILED, image);
      MarkJob(id, job, if image.Some? then READY else FAILED, image);
    }

    predicate Pending(id: EnvId)
      reads this
    {
      id in envs && envs[id].status == PENDING && envs[id].lifecycle == ACTIVE
    }

    predicate OthersKept(before: map<EnvId, Env>, id: EnvId)
      reads this
    {
      envs.Keys == before.Keys && forall other :: other in before && other != id ==> envs[other] == before[other]
    }

    /** READY with the image, or FAILED when there is none; the spec and the age stay. */
    predicate BuiltNow(before: map<EnvId, Env>, id: EnvId, image: Option<string>)
      reads this
    {
      && id in before && id in envs && envs[id].lifecycle == ACTIVE
      && envs[id].status == (if image.Some? then READY else FAILED)
      && envs[id].spec == before[id].spec && envs[id].createdAt == before[id].createdAt
      && (image.Some? ==> envs[id].image == image)
    }

    ghost predicate HasEligible(request: Spec)
      reads this
    {
      exists id :: Eligible(Contents(), request, id)
    }

    /** An eligible environment as small as any other, and the oldest of those. */
    ghost predicate Smallest(request: Spec, id: EnvId)
      reads this
    {
      && Eligible(Contents(), request, id)
      && forall other :: Eligible(Contents(), request, other) ==>
           && |envs[id].spec.packages| <= |envs[other].spec.packages|
           && (|envs[id].spec.packages| == |envs[other].spec.packages| ==> envs[id].createdAt <= envs[other].createdAt)
    }

    /** An answered request keeps its answer, which is built if it waits for that. Otherwise,
        with reuse, the smallest eligible environment is bound and nothing is added or
        built; without it, or without a candidate, the exact environment is. A request
        bound before, to an environment that is being retired, is not bound again and gets
        no answer. */
    method Resolve(request: Spec, reuse: bool, newId: EnvId, newJob: JobId, image: Option<string>, now: int)
      returns (found: Option<EnvId>)
      requires Inv(Contents()) && newId !in envs && newJob !in jobs
      modifies this
      ensures Inv(Contents())
      ensures found.Some? ==>
                && found.value in envs && envs[found.value].lifecycle == ACTIVE
                && Covers(envs[found.value].spec, request) && request in aliases && aliases[request] == found.value
      ensures old(GetForRequest(Contents(), request)).Some? ==>
                && found == old(GetForRequest(Contents(), request))
                && aliases == old(aliases) && OthersKept(old(envs), found.value)
                && (if old(envs)[found.value].status == PENDING then BuiltNow(old(envs), found.value, image)
                    else envs == old(envs) && jobs == old(jobs))
      ensures old(GetForRequest(Contents(), request).None? && reuse && HasEligible(request)) ==>
                && envs == old(envs) && jobs == old(jobs) && byKey == old(byKey)
                && (found.Some? <==> request !in old(aliases))
                && (found.Some? ==> Smallest(request, found.value))
      ensures old(GetForRequest(Contents(), request).None? && !(reuse && HasEligible(request))) ==>
                ExactFor(old(Contents()), request, newId, image, found)
    {
      hide Inv, Covers, Eligible;
      found := Lookup(request);
      if found.Some? {
        AnswerCovers(Contents(), request);
        if envs[found.value].status == PENDING { found := Build(request, found.value, newJob, image); }
      } else {
        if reuse {
          var candidate := FindSmallestSuperset(request);
          if candidate.Some? {
            found := Reuse(request, candidate.value);
            return;
          }
        }
        found := ResolveExact(request, newId, newJob, image, now);
      }
      if found.Some? { AnswerCovers(Contents(), request); }
    }

    method Reuse(request: Spec, id: EnvId) returns (found: Option<EnvId>)
      requires Inv(Contents()) && GetForRequest(Contents(), request).None? && SmallestSuperset(Contents(), request, id)
      modifies this
      ensures Inv(Contents()) && envs == old(envs) && jobs == old(jobs) && byKey == old(byKey)
      ensures found.Some? <==> request !in old(aliases)
      ensures found.Some? ==> found == Some(id) && request in aliases && aliases[request] == id && Smallest(request, id)
      ensures found.Some? ==> id in envs && envs[id].lifecycle == ACTIVE && Covers(envs[id].spec, request)
    {
      hide Inv, Covers;
      BindKeeps(Contents(), request, id);
      var _ := BindRequest(request, id);
      found := Lookup(request);
    }

    /** The environment of exactly this spec: made, built where it waits for that, started
        over when it was RETIRED, refused while it is RETIRING. */
    predicate ExactFor(before: Tables, request: Spec, newId: EnvId, image: Option<string>, found: Option<EnvId>)
      reads this
    {
      if request !in before.byKey then
        && found == (if request in before.aliases then None else Some(newId))
        && envs.Keys == before.envs.Keys + {newId} && envs[newId].spec == request
        && BuiltNow(envs, newId, image) && forall id :: id in before.envs && id != newId ==> envs[id] == before.envs[id]
      else
        var id := before.byKey[request];
        id in before.envs &&
        if before.envs[id].lifecycle == RETIRING then found == None && Contents() == before
        else
          && found == (if request in before.aliases then None else Some(id))
          && OthersKept(before.envs, id)
          && if before.envs[id].lifecycle == RETIRED || before.envs[id].status == PENDING
             then BuiltNow(before.envs, id, image)
             else envs == before.envs && jobs == before.jobs
    }

    method ResolveExact(request: Spec, newId: EnvId, newJob: JobId, image: Option<string>, now: int)
      returns (found: Option<EnvId>)
      requires Inv(Contents()) && newId !in envs && newJob !in jobs
      requires GetForRequest(Contents(), request).None?
      modifies this
      ensures Inv(Contents())
      ensures found.Some? ==> found == GetForRequest(Contents(), request)
      ensures ExactFor(old(Contents()), request, newId, image, found)
    {
      hide Inv, Covers;
      if request in aliases { BoundElsewhere(Contents(), request); }
      var made := MakeExact(request, newId, now);
      if made.None? { return None; }
      var id := made.value;
      BindKeeps(Contents(), request, id);
      var bound := BindRequest(request, id);
      if envs[id].status == PENDING {
        found := Build(request, id, newJob, image);
      } else {
        found := Lookup(request);
      }
    }

    /** get_or_create_exact: the ACTIVE environment of this spec, unless it is RETIRING. */
    method MakeExact(request: Spec, newId: EnvId, now: int) returns (made: Option<EnvId>)
      requires Inv(Contents()) && newId !in envs
      modifies this
      ensures Inv(Contents()) && aliases == old(aliases) && jobs == old(jobs)
      ensures made.None? ==> Contents() == old(Contents()) && request in byKey && byKey[request] in envs
                             && envs[byKey[request]].lifecycle == RETIRING
      ensures made.Some? ==> made.value in envs && envs[made.value].lifecycle == ACTIVE
                             && envs[made.value].spec == request && Covers(envs[made.value].spec, request)
      ensures made.Some? && request !in old(byKey) ==>
                made.value == newId && envs == old(envs)[newId := Env(request, PENDING, ACTIVE, None, now)]
      ensures made.Some? && request in old(byKey) ==>
                && made.value == old(byKey)[request] && made.value in old(envs) && OthersKept(old(envs), made.value)
                && old(envs)[made.value].lifecycle != RETIRING
                && var was := old(envs)[made.value];
                   envs[made.value] == if was.lifecycle == ACTIVE then was
                                       else was.(lifecycle := ACTIVE, status := PENDING, image := None)
    {
      hide Covers, Indexed, AliasesSound, SingleBuilder;
      IndexFinds(Contents(), request);
      hide Inv;
      CreateKeeps(Contents(), request, newId, now);
      CoversItself(request);
      var created := GetOrCreateExact(request, newId, now);
      match created {
        case BeingRetired => made := None;
        case Exact(env) => made := Some(env);
        case Retired(env) =>
          ReactivateKeeps(Contents(), env);
          var _ := ReactivateRetired(env);
          made := Some(env);
      }
    }
  }
}
