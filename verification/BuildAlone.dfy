/** What one thread of the Build service does when nobody interferes: every way a resolve or a
    retry can go, as a run. */
module BuildAlone {
  import opened Wrappers
  import opened BuildTables
  import opened BuildRuns

  lemma Idles(s: State)
    ensures Legal(s, []) && Execute(s, []) == s
  {}

  function Ended(image: Option<string>): Status { if image.Some? then READY else FAILED }

  /** A pending environment that a thread is about to claim, with the job that is new. */
  predicate Claims(s: State, t: Thread, id: EnvId, job: JobId) {
    && PcOf(s, t).Claiming? && PcOf(s, t).env == id && job !in s.tables.jobs
    && id in s.tables.envs && s.tables.envs[id].status == PENDING && s.tables.envs[id].lifecycle == ACTIVE
  }

  /** The claim, then a build that can fail before or in verification, or succeed. */
  function BuildSteps(t: Thread, job: JobId, verifies: bool, image: Option<string>): seq<Step> {
    [ClaimJob(t, job)] + ((if verifies then [Verify(t)] else []) + ([Finish(t, image)] + []))
  }

  /** The environment ends READY with the image, or FAILED; the job tells the same; no other
      environment, alias or job changes, and the thread is free. */
  lemma BuildsItsClaim(s: State, t: Thread, id: EnvId, job: JobId, verifies: bool, image: Option<string>)
    requires Claims(s, t, id, job) && (image.Some? ==> verifies)
    ensures var run, was := BuildSteps(t, job, verifies, image), s.tables;
            Legal(s, run) &&
            var end := Execute(s, run);
            && PcOf(end, t) == Idle && (forall u :: u != t ==> PcOf(end, u) == PcOf(s, u))
            && end.tables.aliases == was.aliases && end.tables.byKey == was.byKey
            && end.tables.jobs == was.jobs[job := Job(id, Ended(image))]
            && end.tables.envs
               == was.envs[id := was.envs[id].(status := Ended(image),
                                               image := if image.Some? then image else was.envs[id].image)]
  {
    hide Legal, Execute;
    var building := Next(s, ClaimJob(t, job));
    var tail := (if verifies then [Verify(t)] else []) + ([Finish(t, image)] + []);
    EndsItsBuild(building, t, id, job, verifies, image);
    Prepended(s, ClaimJob(t, job), tail);
  }

  lemma EndsItsBuild(s: State, t: Thread, id: EnvId, job: JobId, verifies: bool, image: Option<string>)
    requires PcOf(s, t) == Building(id, job) && id in s.tables.envs && job in s.tables.jobs
    requires image.Some? ==> verifies
    ensures var run := (if verifies then [Verify(t)] else []) + ([Finish(t, image)] + []);
            Legal(s, run) &&
            var end := Execute(s, run);
            && end.threads == s.threads[t := Idle]
            && end.tables == s.tables.(
                 jobs := s.tables.jobs[job := s.tables.jobs[job].(status := Ended(image))],
                 envs := s.tables.envs[id := s.tables.envs[id].(
                   status := Ended(image), image := if image.Some? then image else s.tables.envs[id].image)])
  {
    var before := if verifies then Next(s, Verify(t)) else s;
    var end := Next(before, Finish(t, image));
    Idles(end);
    Prepended(before, Finish(t, image), []);
    if verifies {
      Prepended(s, Verify(t), [Finish(t, image)] + []);
    } else {
      assert [] + ([Finish(t, image)] + []) == [Finish(t, image)] + [];
    }
  }

  lemma OneStep(s: State, step: Step)
    requires Enabled(s, step)
    ensures Legal(s, [step]) && Execute(s, [step]) == Next(s, step)
  {
    Prepended(s, step, []);
    Idles(Next(s, step));
    assert [step] + [] == [step];
  }

  /** An answered request ends there, unless its environment waits for a build: then this
      thread is about to claim it. Nothing has changed either way. */
  lemma AnsweredAtOnce(s: State, t: Thread, request: Spec, job: JobId)
    requires PcOf(s, t) == Idle && GetForRequest(s.tables, request).Some? && job !in s.tables.jobs
    ensures var id := GetForRequest(s.tables, request).value;
            var run := [Resolve(t, request)];
            Legal(s, run) &&
            var end := Execute(s, run);
            && end.tables == s.tables
            && if s.tables.envs[id].status == PENDING then Claims(end, t, id, job) else PcOf(end, t) == Idle
  {
    OneStep(s, Resolve(t, request));
  }

  function Chosen(s: State, t: Thread, request: Spec, candidate: Option<EnvId>): State {
    var pc := if candidate.Some? then Reusing(request, candidate.value) else Creating(request);
    State(s.tables, s.threads[t := pc])
  }

  /** Without an answer the thread looks for a superset. */
  lemma Chooses(s: State, t: Thread, request: Spec, candidate: Option<EnvId>, rest: seq<Step>)
    requires PcOf(s, t) == Idle && GetForRequest(s.tables, request) == None
    requires candidate.Some? ==> SmallestSuperset(s.tables, request, candidate.value)
    requires Legal(Chosen(s, t, request, candidate), rest)
    ensures var run := [Resolve(t, request)] + ([Choose(t, candidate)] + rest);
            Legal(s, run) && Execute(s, run) == Execute(Chosen(s, t, request, candidate), rest)
  {
    var looking := Next(s, Resolve(t, request));
    assert looking == State(s.tables, s.threads[t := Choosing(request)]);
    assert Next(looking, Choose(t, candidate)) == Chosen(s, t, request, candidate) by {
      assert looking.threads[t := Chosen(s, t, request, candidate).threads[t]]
        == Chosen(s, t, request, candidate).threads;
    }
    Prepended(looking, Choose(t, candidate), rest);
    Prepended(s, Resolve(t, request), [Choose(t, candidate)] + rest);
  }

  /** A superset is bound to the request, if that has no binding yet, and nothing is built. */
  lemma SupersetIsBound(s: State, t: Thread, request: Spec, id: EnvId)
    requires PcOf(s, t) == Idle && GetForRequest(s.tables, request) == None && SmallestSuperset(s.tables, request, id)
    ensures var run := [Resolve(t, request)] + ([Choose(t, Some(id))] + [BindTo(t)]);
            Legal(s, run) &&
            var end := Execute(s, run);
            && PcOf(end, t) == Idle
            && end.tables == if request in s.tables.aliases then s.tables
                             else s.tables.(aliases := s.tables.aliases[request := id])
  {
    var chosen := Chosen(s, t, request, Some(id));
    OneStep(chosen, BindTo(t));
    Chooses(s, t, request, Some(id), [BindTo(t)]);
  }

  /** Where an exact environment is not wanted now, the resolve ends without a trace. */
  lemma RetiringRefuses(s: State, t: Thread, request: Spec, newId: EnvId, now: int)
    requires Good(s) && PcOf(s, t) == Idle && GetForRequest(s.tables, request) == None && newId !in s.tables.envs
    requires request in s.tables.byKey && s.tables.envs[s.tables.byKey[request]].lifecycle == RETIRING
    ensures var run := [Resolve(t, request)] + ([Choose(t, None)] + [Create(t, newId, now)]);
            Legal(s, run) && PcOf(Execute(s, run), t) == Idle && Execute(s, run).tables == s.tables
  {
    var chosen := Chosen(s, t, request, None);
    OneStep(chosen, Create(t, newId, now));
    Chooses(s, t, request, None, [Create(t, newId, now)]);
  }

  /** Tables in which the request is bound to this environment, unless it was bound before. */
  function BoundTo(t: Tables, request: Spec, id: EnvId): Tables {
    if request in t.aliases then t else t.(aliases := t.aliases[request := id])
  }

  /** A resolve without a superset binds its own ACTIVE environment, new if there was none, and
      claims that if it waits for a build. */
  lemma ExactIsBound(s: State, t: Thread, request: Spec, newId: EnvId, now: int, job: JobId)
    requires Good(s) && PcOf(s, t) == Idle && GetForRequest(s.tables, request) == None
    requires newId !in s.tables.envs && job !in s.tables.jobs
    requires request in s.tables.byKey ==> s.tables.envs[s.tables.byKey[request]].lifecycle == ACTIVE
    ensures var run := [Resolve(t, request)] + ([Choose(t, None)] + ([Create(t, newId, now)] + [BindTo(t)]));
            var id := if request in s.tables.byKey then s.tables.byKey[request] else newId;
            var made := if request in s.tables.byKey then s.tables
                        else s.tables.(envs := s.tables.envs[newId := Env(request, PENDING, ACTIVE, None, now)],
                                       byKey := s.tables.byKey[request := newId]);
            id in made.envs && Legal(s, run) &&
            var end := Execute(s, run);
            && end.tables == BoundTo(made, request, id)
            && if made.envs[id].status == PENDING then Claims(end, t, id, job) else PcOf(end, t) == Idle
  {
    var chosen := Chosen(s, t, request, None);
    var made := Next(chosen, Create(t, newId, now));
    var id := if request in s.tables.byKey then s.tables.byKey[request] else newId;
    MakesExact(chosen, t, request, newId, now);
    hide Legal, Execute, Good, GetForRequest, CreateExact, SmallestSuperset;
    BindsExact(made, t, request, id, job);
    Prepended(chosen, Create(t, newId, now), [BindTo(t)]);
    Chooses(s, t, request, None, [Create(t, newId, now)] + [BindTo(t)]);
  }

  /** Its own RETIRED environment is started over first, as if new but with its id and age. */
  lemma RetiredStartsOver(s: State, t: Thread, request: Spec, newId: EnvId, now: int, job: JobId)
    requires Good(s) && PcOf(s, t) == Idle && GetForRequest(s.tables, request) == None
    requires newId !in s.tables.envs && job !in s.tables.jobs
    requires request in s.tables.byKey && s.tables.envs[s.tables.byKey[request]].lifecycle == RETIRED
    ensures var tail := [Create(t, newId, now)] + ([React(t)] + [BindTo(t)]);
            var run := [Resolve(t, request)] + ([Choose(t, None)] + tail);
            var id := s.tables.byKey[request];
            var env := s.tables.envs[id].(lifecycle := ACTIVE, status := PENDING, image := None);
            Legal(s, run) &&
            var end := Execute(s, run);
            && end.tables == BoundTo(s.tables.(envs := s.tables.envs[id := env]), request, id)
            && Claims(end, t, id, job)
  {
    var chosen := Chosen(s, t, request, None);
    var made := Next(chosen, Create(t, newId, now));
    var id := s.tables.byKey[request];
    MakesExact(chosen, t, request, newId, now);
    hide Legal, Execute, Good, GetForRequest, CreateExact, SmallestSuperset;
    BindsAgain(made, t, request, id, job);
    Prepended(chosen, Create(t, newId, now), [React(t)] + [BindTo(t)]);
    Chooses(s, t, request, None, [Create(t, newId, now)] + ([React(t)] + [BindTo(t)]));
  }

  lemma MakesExact(s: State, t: Thread, request: Spec, newId: EnvId, now: int)
    requires Good(s) && PcOf(s, t) == Creating(request) && newId !in s.tables.envs
    requires request in s.tables.byKey ==> s.tables.envs[s.tables.byKey[request]].lifecycle != RETIRING
    ensures Enabled(s, Create(t, newId, now))
    ensures var n, was := Next(s, Create(t, newId, now)), s.tables;
            && n.tables.aliases == was.aliases && n.tables.jobs == was.jobs
            && if request !in was.byKey then
                 && n.tables.envs == was.envs[newId := Env(request, PENDING, ACTIVE, None, now)]
                 && n.tables.byKey == was.byKey[request := newId] && PcOf(n, t) == Binding(request, newId, true)
               else
                 var id := was.byKey[request];
                 && n.tables == was && id in was.envs
                 && PcOf(n, t) == if was.envs[id].lifecycle == RETIRED then Reactivating(request, id)
                                  else Binding(request, id, was.envs[id].status == PENDING)
  {}

  lemma StartsOver(s: State, t: Thread, request: Spec, id: EnvId)
    requires PcOf(s, t) == Reactivating(request, id) && id in s.tables.envs && s.tables.envs[id].lifecycle == RETIRED
    ensures Enabled(s, React(t))
    ensures var n := Next(s, React(t));
            && n.tables == s.tables.(envs := s.tables.envs[id := s.tables.envs[id].(
                 lifecycle := ACTIVE, status := PENDING, image := None)])
            && PcOf(n, t) == Binding(request, id, true)
  {}

  lemma BindsAgain(s: State, t: Thread, request: Spec, id: EnvId, job: JobId)
    requires PcOf(s, t) == Reactivating(request, id) && id in s.tables.envs && s.tables.envs[id].lifecycle == RETIRED
    requires job !in s.tables.jobs
    ensures var run := [React(t)] + [BindTo(t)];
            var env := s.tables.envs[id].(lifecycle := ACTIVE, status := PENDING, image := None);
            Legal(s, run) && Claims(Execute(s, run), t, id, job)
            && Execute(s, run).tables == BoundTo(s.tables.(envs := s.tables.envs[id := env]), request, id)
  {
    hide Legal, Execute;
    StartsOver(s, t, request, id);
    BindsExact(Next(s, React(t)), t, request, id, job);
    Prepended(s, React(t), [BindTo(t)]);
  }

  lemma BindsExact(s: State, t: Thread, request: Spec, id: EnvId, job: JobId)
    requires id in s.tables.envs && s.tables.envs[id].lifecycle == ACTIVE && job !in s.tables.jobs
    requires PcOf(s, t) == Binding(request, id, s.tables.envs[id].status == PENDING)
    ensures Legal(s, [BindTo(t)]) &&
            var end := Execute(s, [BindTo(t)]);
            && end.tables == (if request in s.tables.aliases then s.tables
                              else s.tables.(aliases := s.tables.aliases[request := id]))
            && if s.tables.envs[id].status == PENDING then Claims(end, t, id, job) else PcOf(end, t) == Idle
  {
    OneStep(s, BindTo(t));
  }

  /** A retry of a FAILED environment makes it wait for a build and claims it; of any other, or
      none, it changes nothing. */
  lemma RetryClaims(s: State, t: Thread, request: Spec, job: JobId)
    requires PcOf(s, t) == Idle && job !in s.tables.jobs
    ensures var found := GetForRequest(s.tables, request);
            if found.Some? && s.tables.envs[found.value].status == FAILED then
              var run := [Retry(t, request)] + [Reset(t)];
              Legal(s, run) &&
              var end := Execute(s, run);
              && Claims(end, t, found.value, job)
              && end.tables == s.tables.(envs := s.tables.envs[found.value :=
                                                   s.tables.envs[found.value].(status := PENDING, image := None)])
            else
              Legal(s, [Retry(t, request)]) && PcOf(Execute(s, [Retry(t, request)]), t) == Idle
              && Execute(s, [Retry(t, request)]).tables == s.tables
  {
    var found := GetForRequest(s.tables, request);
    if found.Some? && s.tables.envs[found.value].status == FAILED {
      var read := Next(s, Retry(t, request));
      OneStep(read, Reset(t));
      Prepended(s, Retry(t, request), [Reset(t)]);
    } else {
      OneStep(s, Retry(t, request));
    }
  }
}
