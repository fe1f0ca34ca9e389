/** The execution plane under interleaving: threads inside acquire, release, cancel and
    the sweeps, each lock region or backend outcome one step, next to retirement gates
    and a backend whose sandboxes vanish on their own and whose create calls, given up by
    their caller, may still take effect later. */
module Plane {
  import opened Wrappers
  import opened Pool
  import opened Quota

  type Thread = nat

  /** A destroy loop: `pending` is marked destroyed and its reservation not yet released. */
  datatype Job = Job(queue: seq<WorkerId>, pending: Option<WorkerId>)

  datatype Then = Prepare(worker: WorkerId) | Boot | GiveUp

  datatype Phase =
    | Entered
    | Destroying(job: Job, next: Then)
    | Booting(created: Option<WorkerId>)     // reservation held, create in flight
    | Installing(sandbox: WorkerId)
    | Unreserving
    | Done(got: Option<WorkerId>)

  datatype Pc =
    | Over
    | Acquiring(key: PoolKey, phase: Phase)
    | Holding(key: PoolKey, worker: WorkerId)
    | Returning(key: PoolKey, worker: WorkerId)   // found reusable, not yet appended
    | Sweeping(job: Job)

  datatype State = State(
    caps: Caps,
    workers: map<WorkerId, Worker>,
    released: set<WorkerId>,             // workers whose reservation was given back
    idle: Idle,
    counts: Counts,
    acquiring: map<string, int>,
    gates: set<string>,                  // runtimes with a lifecycle row
    live: map<WorkerId, string>,         // sandboxes that exist, with their runtime
    lost: multiset<string>,              // create calls given up that may still take effect
    seen: set<WorkerId>,                 // sandbox ids ever used
    threads: map<Thread, Pc>)

  datatype Step =
    | Enter(t: Thread, key: PoolKey)
    | Pop(t: Thread, bad: set<WorkerId>)
    | Mark(t: Thread)
    | Settle(t: Thread, raised: bool)
    | PrepareOk(t: Thread)
    | PrepareFail(t: Thread)
    | ReserveLive(t: Thread)
    | StopTrying(t: Thread)
    | Appear(t: Thread, sandbox: WorkerId)
    | CreateOk(t: Thread)
    | CreateFail(t: Thread, undecided: bool)
    | InstallOk(t: Thread)
    | InstallFail(t: Thread)
    | Unreserve(t: Thread)
    | Leave(t: Thread)
    | BeginReturn(t: Thread, reuse: bool)
    | Append(t: Thread)
    | Discard(t: Thread)
    | Cancel(t: Thread, worker: WorkerId)
    | Sweep(t: Thread, queue: seq<WorkerId>)
    | SweepDone(t: Thread)
    | Gate(runtime: string)
    | Ungate(runtime: string)
    | Vanish(sandbox: WorkerId)
    | Late(sandbox: WorkerId, runtime: string)   // a lost create call takes effect
    | Forget(runtime: string)                    // or never will

  function PcOf(s: State, t: Thread): Pc {
    if t in s.threads then s.threads[t] else Over
  }

  predicate Loops(pc: Pc) {
    pc.Sweeping? || (pc.Acquiring? && pc.phase.Destroying?)
  }

  function JobOf(pc: Pc): Job
    requires Loops(pc)
  {
    if pc.Sweeping? then pc.job else pc.phase.job
  }

  function WithJob(pc: Pc, job: Job): Pc
    requires Loops(pc)
  {
    if pc.Sweeping? then Sweeping(job) else Acquiring(pc.key, Destroying(job, pc.phase.next))
  }

  predicate Quiet(job: Job) { job.queue == [] && job.pending == None }

  /** An acquire whose destroy loop is through, about to do `next`. */
  predicate Ready(pc: Pc) {
    pc.Acquiring? && pc.phase.Destroying? && Quiet(pc.phase.job)
  }

  predicate Broken(w: Worker) { w.destroyed || !w.healthy }

  /** Where in its code the acting thread must be. */
  predicate At(pc: Pc, step: Step) {
    match step
    case Enter(_, _) => pc.Over?
    case Pop(_, _) => pc.Acquiring? && pc.phase.Entered?
    case Mark(_) => Loops(pc) && JobOf(pc).pending == None && JobOf(pc).queue != []
    case Settle(_, _) => Loops(pc) && JobOf(pc).pending.Some?
    case PrepareOk(_) => Ready(pc) && pc.phase.next.Prepare?
    case PrepareFail(_) => Ready(pc) && pc.phase.next.Prepare?
    case ReserveLive(_) => Ready(pc) && pc.phase.next.Boot?
    case StopTrying(_) => Ready(pc) && pc.phase.next.GiveUp?
    case Appear(_, _) => pc.Acquiring? && pc.phase == Booting(None)
    case CreateOk(_) => pc.Acquiring? && pc.phase.Booting? && pc.phase.created.Some?
    case CreateFail(_, undecided) => pc.Acquiring? && pc.phase.Booting? && (undecided ==> pc.phase.created == None)
    case InstallOk(_) => pc.Acquiring? && pc.phase.Installing?
    case InstallFail(_) => pc.Acquiring? && pc.phase.Installing?
    case Unreserve(_) => pc.Acquiring? && pc.phase.Unreserving?
    case Leave(_) => pc.Acquiring? && pc.phase.Done?
    case BeginReturn(_, _) => pc.Holding?
    case Append(_) => pc.Returning?
    case Discard(_) => pc.Holding?
    case Cancel(_, _) => pc.Over?
    case Sweep(_, _) => pc.Over?
    case SweepDone(_) => pc.Sweeping? && Quiet(pc.job)
    case _ => true
  }

  /** The thread that moves in a step. */
  predicate Acts(step: Step) {
    !step.Gate? && !step.Ungate? && !step.Vanish? && !step.Late? && !step.Forget?
  }

  function PcBefore(s: State, step: Step): Pc {
    if Acts(step) then PcOf(s, step.t) else Over
  }

  predicate Enabled(s: State, step: Step) {
    var pc := PcBefore(s, step);
    && At(pc, step)
    && (step.Enter? ==> step.key.runtime !in s.gates)
    && (step.Pop? ==> forall w :: w in Bucket(s.idle, pc.key) && w in s.workers && Broken(s.workers[w]) ==>
                        w in step.bad)
    && (step.Appear? || step.Late? ==> step.sandbox !in s.seen)
    && (step.Late? || step.Forget? ==> step.runtime in s.lost)
    && (step.Sweep? ==> forall w :: w in step.queue ==> IsIdle(s.idle, w))
    && (Worked(s, step).Some? ==> Worked(s, step).value in s.workers)
  }

  /** The worker a step changes. */
  function Worked(s: State, step: Step): Option<WorkerId> {
    var pc := PcBefore(s, step);
    if !At(pc, step) then None
    else match step
      case Mark(_) => Some(JobOf(pc).queue[0])
      case Settle(_, _) => JobOf(pc).pending
      case PrepareFail(_) => Some(pc.phase.next.worker)
      case BeginReturn(_, _) => Some(pc.worker)
      case Discard(_) => Some(pc.worker)
      case Cancel(_, w) => Some(w)
      case _ => None
  }

  function CountOf(s: State, runtime: string): int {
    if runtime in s.acquiring then s.acquiring[runtime] else 0
  }

  function Popped(s: State, key: PoolKey, bad: set<WorkerId>): Pool.Popped {
    PopFrom(Bucket(s.idle, key), bad)
  }

  /** Where the acting thread goes. */
  function PcAfter(s: State, step: Step): Pc
    requires Enabled(s, step)
  {
    var pc := PcBefore(s, step);
    match step
    case Enter(_, key) => Acquiring(key, Entered)
    case Pop(_, bad) =>
      var p := Popped(s, pc.key, bad);
      Acquiring(pc.key, Destroying(Job(p.stale, None), if p.candidate.Some? then Prepare(p.candidate.value) else Boot))
    case Mark(_) =>
      var w, rest := JobOf(pc).queue[0], JobOf(pc).queue[1..];
      WithJob(pc, Job(rest, if s.workers[w].destroyed then None else Some(w)))
    case Settle(_, raised) =>
      // an exception leaves the loop, and the acquire with it
      if raised && pc.Acquiring? then Acquiring(pc.key, Destroying(Job([], None), GiveUp))
      else WithJob(pc, Job(if raised then [] else JobOf(pc).queue, None))
    case PrepareOk(_) => Acquiring(pc.key, Done(Some(pc.phase.next.worker)))
    case PrepareFail(_) => Acquiring(pc.key, Destroying(Job([pc.phase.next.worker], None), GiveUp))
    case ReserveLive(_) =>
      Acquiring(pc.key, if Reserve(s.counts, s.caps, pc.key.tenant).1 == Granted then Booting(None) else Done(None))
    case StopTrying(_) => Acquiring(pc.key, Done(None))
    case Appear(_, sandbox) => Acquiring(pc.key, Booting(Some(sandbox)))
    case CreateOk(_) => Acquiring(pc.key, Installing(pc.phase.created.value))
    case CreateFail(_, _) => Acquiring(pc.key, Unreserving)
    case InstallOk(_) => Acquiring(pc.key, Done(Some(pc.phase.sandbox)))
    case InstallFail(_) => Acquiring(pc.key, Unreserving)
    case Unreserve(_) => Acquiring(pc.key, Done(None))
    case Leave(_) => if pc.phase.got.Some? then Holding(pc.key, pc.phase.got.value) else Over
    case BeginReturn(_, reuse) =>
      if reuse && !Broken(s.workers[pc.worker]) then Returning(pc.key, pc.worker)
      else Sweeping(Job([pc.worker], None))
    case Discard(_) => Sweeping(Job([pc.worker], None))
    case Cancel(_, w) => Sweeping(Job([w], None))
    case Sweep(_, queue) => Sweeping(Job(queue, None))
    case _ => Over
  }

  function WorkersAfter(s: State, step: Step): map<WorkerId, Worker>
    requires Enabled(s, step)
  {
    if step.InstallOk? then
      var pc := PcBefore(s, step);
      s.workers[pc.phase.sandbox := Worker(pc.key, true, false, 0, {}, 0)]
    else if Worked(s, step) == None then s.workers
    else
      var w := Worked(s, step).value;
      if step.Mark? then s.workers[w := s.workers[w].(destroyed := true)]
      else if step.PrepareFail? || step.Discard? || step.Cancel? then s.workers[w := s.workers[w].(healthy := false)]
      else s.workers
  }

  function ReleasedAfter(s: State, step: Step): set<WorkerId>
    requires Enabled(s, step)
  {
    if step.Settle? then s.released + {Worked(s, step).value} else s.released
  }

  function IdleAfter(s: State, step: Step): Idle
    requires Enabled(s, step)
  {
    var pc := PcBefore(s, step);
    match step
    case Pop(_, bad) => AfterPop(s.idle, pc.key, Popped(s, pc.key, bad))
    case Append(_) => AfterAppend(s.idle, pc.key, pc.worker)
    case Sweep(_, queue) => Pool.Sweep(s.idle, Elements(queue))
    case _ => s.idle
  }

  function CountsAfter(s: State, step: Step): Counts
    requires Enabled(s, step)
  {
    var pc := PcBefore(s, step);
    match step
    case Settle(_, _) => Release(s.counts, s.workers[Worked(s, step).value].key.tenant)
    case ReserveLive(_) => Reserve(s.counts, s.caps, pc.key.tenant).0
    case Unreserve(_) => Release(s.counts, pc.key.tenant)
    case _ => s.counts
  }

  function AcquiringAfter(s: State, step: Step): map<string, int>
    requires Enabled(s, step)
  {
    match step
    case Enter(_, key) => s.acquiring[key.runtime := CountOf(s, key.runtime) + 1]
    case Leave(t) =>
      var r := PcOf(s, t).key.runtime;
      var left := CountOf(s, r) - 1;
      if left > 0 then s.acquiring[r := left] else s.acquiring - {r}
    case _ => s.acquiring
  }

  function GatesAfter(s: State, step: Step): set<string> {
    match step
    case Gate(runtime) => s.gates + {runtime}
    case Ungate(runtime) => s.gates - {runtime}
    case _ => s.gates
  }

  function LiveAfter(s: State, step: Step): map<WorkerId, string>
    requires Enabled(s, step)
  {
    match step
    case Appear(t, sandbox) => s.live[sandbox := PcOf(s, t).key.runtime]
    case Vanish(sandbox) => s.live - {sandbox}
    case Late(sandbox, runtime) => s.live[sandbox := runtime]
    case _ => s.live
  }

  function LostAfter(s: State, step: Step): multiset<string>
    requires Enabled(s, step)
  {
    match step
    case CreateFail(t, undecided) => if undecided then s.lost + multiset{PcOf(s, t).key.runtime} else s.lost
    case Late(_, runtime) => s.lost - multiset{runtime}
    case Forget(runtime) => s.lost - multiset{runtime}
    case _ => s.lost
  }

  function ThreadsAfter(s: State, step: Step): map<Thread, Pc>
    requires Enabled(s, step)
  {
    if Acts(step) then s.threads[step.t := PcAfter(s, step)] else s.threads
  }

  function Next(s: State, step: Step): State
    requires Enabled(s, step)
  {
    State(s.caps, WorkersAfter(s, step), ReleasedAfter(s, step), IdleAfter(s, step), CountsAfter(s, step),
          AcquiringAfter(s, step), GatesAfter(s, step), LiveAfter(s, step), LostAfter(s, step),
          if step.Appear? || step.Late? then s.seen + {step.sandbox} else s.seen, ThreadsAfter(s, step))
  }

  function Execute(s: State, steps: seq<Step>): State
    requires Legal(s, steps)
    decreases |steps|
  {
    if steps == [] then s else Execute(Next(s, steps[0]), steps[1..])
  }

  predicate Legal(s: State, steps: seq<Step>)
    decreases |steps|
  {
    steps == [] || (Enabled(s, steps[0]) && Legal(Next(s, steps[0]), steps[1..]))
  }

  function Initial(caps: Caps): State {
    State(caps, map[], {}, map[], Counts(0, map[]), map[], {}, map[], multiset{}, {}, map[])
  }

  // ----- acquire counters

  function Acquirers(threads: map<Thread, Pc>, runtime: string): set<Thread> {
    set t | t in threads && threads[t].Acquiring? && threads[t].key.runtime == runtime
  }

  /** Each counter is the number of threads inside acquire. */
  ghost predicate Counted(s: State) {
    && (forall r :: CountOf(s, r) == |Acquirers(s.threads, r)|)
    && (forall r :: r in s.acquiring ==> s.acquiring[r] > 0)
  }

  function Inside(pc: Pc, runtime: string): int {
    if pc.Acquiring? && pc.key.runtime == runtime then 1 else 0
  }

  lemma SizeChange<T>(a: set<T>, b: set<T>, x: T)
    requires a - {x} == b - {x}
    ensures |b| == |a| - (if x in a then 1 else 0) + (if x in b then 1 else 0)
  {
    assert |a| == |a - {x}| + (if x in a then 1 else 0) by { if x !in a { assert a - {x} == a; } }
    assert |b| == |b - {x}| + (if x in b then 1 else 0) by { if x !in b { assert b - {x} == b; } }
  }

  lemma AcquirersAfter(s: State, t: Thread, pc: Pc, r: string)
    ensures |Acquirers(s.threads[t := pc], r)|
            == |Acquirers(s.threads, r)| - Inside(PcOf(s, t), r) + Inside(pc, r)
  {
    SizeChange(Acquirers(s.threads, r), Acquirers(s.threads[t := pc], r), t);
  }

  lemma StepKeepsCounted(s: State, step: Step)
    requires Counted(s) && Enabled(s, step)
    ensures Counted(Next(s, step))
  {
    hide Acquirers, WorkersAfter, ReleasedAfter, IdleAfter, CountsAfter, LiveAfter;
    var n := Next(s, step);
    forall r ensures CountOf(n, r) == |Acquirers(n.threads, r)| {
      if Acts(step) { AcquirersAfter(s, step.t, PcAfter(s, step), r); }
    }
  }

  // ----- reservations

  predicate HasSlot(pc: Pc, tenant: Option<string>) {
    && pc.Acquiring? && (pc.phase.Booting? || pc.phase.Installing? || pc.phase.Unreserving?)
    && (tenant == None || tenant == Some(pc.key.tenant))
  }

  predicate HasReservation(s: State, w: WorkerId, tenant: Option<string>) {
    w in s.workers && w !in s.released && (tenant == None || tenant == Some(s.workers[w].key.tenant))
  }

  /** Reservations whose sandbox is still being created, for one tenant or for all. */
  function Slots(threads: map<Thread, Pc>, tenant: Option<string>): set<Thread> {
    set t | t in threads && HasSlot(threads[t], tenant)
  }

  /** Workers whose reservation was not given back. */
  function Kept(s: State, tenant: Option<string>): set<WorkerId> {
    set w | w in s.workers && HasReservation(s, w, tenant)
  }

  function Reserved(c: Counts, tenant: Option<string>): int {
    if tenant == None then c.live else TenantCount(c, tenant.value)
  }

  /** The accounts are the outstanding reservations, in all and per tenant. */
  ghost predicate Conserved(s: State) {
    forall x :: Reserved(s.counts, x) == |Slots(s.threads, x)| + |Kept(s, x)|
  }

  function Bit(b: bool): int { if b then 1 else 0 }

  lemma SlotsAfter(s: State, t: Thread, pc: Pc, x: Option<string>)
    ensures |Slots(s.threads[t := pc], x)|
            == |Slots(s.threads, x)| - Bit(HasSlot(PcOf(s, t), x)) + Bit(HasSlot(pc, x))
  {
    SizeChange(Slots(s.threads, x), Slots(s.threads[t := pc], x), t);
  }

  /** Only w's reservation may change. */
  lemma KeptAfter(s: State, n: State, w: WorkerId, x: Option<string>)
    requires n.released - {w} == s.released - {w} && n.workers.Keys - {w} == s.workers.Keys - {w}
    requires forall v :: v in s.workers && v != w ==> v in n.workers && n.workers[v].key == s.workers[v].key
    ensures |Kept(n, x)| == |Kept(s, x)| - Bit(HasReservation(s, w, x)) + Bit(HasReservation(n, w, x))
  {
    forall v | v != w ensures v in s.released <==> v in n.released {
      assert v in s.released - {w} <==> v in n.released - {w};
    }
    forall v | v != w ensures v in s.workers <==> v in n.workers {
      assert v in s.workers.Keys - {w} <==> v in n.workers.Keys - {w};
    }
    SizeChange(Kept(s, x), Kept(n, x), w);
  }

  /** The worker that the thread has marked destroyed and not yet released. */
  function PendingOf(pc: Pc): Option<WorkerId> {
    if Loops(pc) then JobOf(pc).pending else None
  }

  /** A destroyed worker's reservation is pending in exactly one destroy loop or released. */
  ghost predicate Accounted(s: State) {
    && (forall t :: t in s.threads && PendingOf(s.threads[t]).Some? ==> Pends(s, PendingOf(s.threads[t]).value))
    && (forall t, u :: t in s.threads && u in s.threads && t != u && PendingOf(s.threads[t]).Some? ==>
          PendingOf(s.threads[t]) != PendingOf(s.threads[u]))
    && (forall w :: Pends(s, w) ==> exists t :: t in s.threads && PendingOf(s.threads[t]) == Some(w))
    && (forall w :: w in s.released ==> w in s.workers && s.workers[w].destroyed)
  }

  predicate Pends(s: State, w: WorkerId) {
    w in s.workers && s.workers[w].destroyed && w !in s.released
  }

  // ----- who has which worker

  function OwnedBy(pc: Pc): Option<WorkerId> {
    match pc
    case Holding(_, w) => Some(w)
    case Returning(_, w) => Some(w)
    case Acquiring(_, Destroying(_, Prepare(w))) => Some(w)
    case Acquiring(_, Done(got)) => got
    case _ => None
  }

  function Boots(pc: Pc): Option<WorkerId> {
    match pc
    case Acquiring(_, Booting(created)) => created
    case Acquiring(_, Installing(w)) => Some(w)
    case _ => None
  }

  /** A worker a thread has is in no idle list, has the key it was asked for, and is
      in no other thread's hands. */
  ghost predicate OwnedOnce(s: State) {
    && (forall t :: t in s.threads && OwnedBy(s.threads[t]).Some? ==> Held(s, s.threads[t]))
    && OwnersDiffer(s.threads)
  }

  ghost predicate OwnersDiffer(threads: map<Thread, Pc>) {
    forall t, u :: t in threads && u in threads && t != u && OwnedBy(threads[t]).Some? ==>
      OwnedBy(threads[t]) != OwnedBy(threads[u])
  }

  /** Sandboxes in creation are different and nobody's worker yet. */
  ghost predicate BootsFresh(s: State) {
    && (forall t :: t in s.threads && Boots(s.threads[t]).Some? ==>
          Boots(s.threads[t]).value in s.seen && Boots(s.threads[t]).value !in s.workers)
    && BootsDiffer(s.threads)
    && s.workers.Keys <= s.seen
  }

  ghost predicate BootsDiffer(threads: map<Thread, Pc>) {
    forall t, u :: t in threads && u in threads && t != u && Boots(threads[t]).Some? ==>
      Boots(threads[t]) != Boots(threads[u])
  }

  ghost predicate Exclusive(s: State) { OwnedOnce(s) && BootsFresh(s) }

  predicate Held(s: State, pc: Pc)
    requires OwnedBy(pc).Some?
  {
    var w := OwnedBy(pc).value;
    w in s.workers && !IsIdle(s.idle, w) && s.workers[w].key == pc.key
  }

  /** Destroy loops work on real workers. */
  ghost predicate Queued(s: State) {
    forall t :: t in s.threads && Loops(s.threads[t]) ==>
      forall w :: w in JobOf(s.threads[t]).queue ==> w in s.workers
  }

  ghost predicate Inv(s: State) {
    && 0 < s.caps.live && 0 < s.caps.perTenant && Sane(s.counts, s.caps)
    && Counted(s) && Conserved(s) && Accounted(s)
    && Filed(s.workers, s.idle) && Exclusive(s) && Queued(s)
  }

  /** Outside the steps that take, hand over or give back a reservation nothing moves. */
  predicate Accounts(step: Step) {
    step.Settle? || step.ReserveLive? || step.InstallOk? || step.Unreserve?
  }

  lemma OtherStepsMoveNoSlot(s: State, step: Step)
    requires Enabled(s, step) && !Accounts(step) && Acts(step)
    ensures forall x :: HasSlot(PcAfter(s, step), x) == HasSlot(PcBefore(s, step), x)
  {}

  lemma OtherStepsKeepConserved(s: State, step: Step)
    requires Inv(s) && Enabled(s, step) && !Accounts(step)
    ensures Conserved(Next(s, step))
  {
    hide Sane, Counted, Accounted, Filed, Exclusive, Queued, Slots, Kept, HasSlot, AcquiringAfter, At;
    hide GatesAfter, IdleAfter, LiveAfter, LostAfter, PcAfter;
    if Acts(step) { OtherStepsMoveNoSlot(s, step); }
    var n := Next(s, step);
    forall x ensures Reserved(n.counts, x) == |Slots(n.threads, x)| + |Kept(n, x)| {
      if Acts(step) { SlotsAfter(s, step.t, PcAfter(s, step), x); }
      SameKept(s, n, x);
    }
  }

  lemma SameKept(s: State, n: State, x: Option<string>)
    requires n.released == s.released && n.workers.Keys == s.workers.Keys
    requires forall w :: w in s.workers ==> n.workers[w].key == s.workers[w].key
    ensures Kept(n, x) == Kept(s, x)
  {}

  /** A reservation that is being given back is on the books: the silent return of
      release_live is never taken. */
  lemma ReleaseIsNeverIgnored(s: State, step: Step)
    requires Inv(s) && Enabled(s, step)
    ensures step.Settle? ==>
              TenantCount(s.counts, s.workers[JobOf(PcOf(s, step.t)).pending.value].key.tenant) > 0
    ensures step.Unreserve? ==> TenantCount(s.counts, PcOf(s, step.t).key.tenant) > 0
  {
    hide Counted, Sane, Filed, Queued, Exclusive;
    if step.Settle? {
      var w := JobOf(PcOf(s, step.t)).pending.value;
      var x := Some(s.workers[w].key.tenant);
      assert Pends(s, w) && w in Kept(s, x);
      assert Reserved(s.counts, x) > 0;
    }
    if step.Unreserve? {
      var x := Some(PcOf(s, step.t).key.tenant);
      assert step.t in Slots(s.threads, x);
      assert Reserved(s.counts, x) > 0;
    }
  }

  lemma SettleKeepsConserved(s: State, t: Thread, raised: bool)
    requires Inv(s) && Enabled(s, Settle(t, raised))
    ensures Conserved(Next(s, Settle(t, raised)))
  {
    hide Counted, Sane, Slots, Kept, Filed, Queued, Exclusive, IdleAfter, LiveAfter, LostAfter, AcquiringAfter;
    ReleaseIsNeverIgnored(s, Settle(t, raised));
    var n, w := Next(s, Settle(t, raised)), JobOf(PcOf(s, t)).pending.value;
    assert Pends(s, w);
    forall x ensures Reserved(n.counts, x) == |Slots(n.threads, x)| + |Kept(n, x)| {
      SlotsAfter(s, t, n.threads[t], x);
      KeptAfter(s, n, w, x);
    }
  }

  lemma ReserveKeepsConserved(s: State, t: Thread)
    requires Inv(s) && Enabled(s, ReserveLive(t))
    ensures Conserved(Next(s, ReserveLive(t)))
  {
    hide Counted, Sane, Slots, Kept, Filed, Queued, Exclusive, Accounted;
    var n := Next(s, ReserveLive(t));
    forall x ensures Reserved(n.counts, x) == |Slots(n.threads, x)| + |Kept(n, x)| {
      SlotsAfter(s, t, n.threads[t], x);
      SameKept(s, n, x);
    }
  }

  /** An admitted worker takes over the reservation its creation held. */
  lemma InstallKeepsConserved(s: State, t: Thread)
    requires Inv(s) && Enabled(s, InstallOk(t))
    ensures Conserved(Next(s, InstallOk(t)))
  {
    hide Counted, Sane, Slots, Kept, Filed, Queued;
    var n, w := Next(s, InstallOk(t)), PcOf(s, t).phase.sandbox;
    assert Boots(s.threads[t]) == Some(w);
    forall x ensures Reserved(n.counts, x) == |Slots(n.threads, x)| + |Kept(n, x)| {
      SlotsAfter(s, t, n.threads[t], x);
      KeptAfter(s, n, w, x);
    }
  }

  lemma UnreserveKeepsConserved(s: State, t: Thread)
    requires Inv(s) && Enabled(s, Unreserve(t))
    ensures Conserved(Next(s, Unreserve(t)))
  {
    hide Counted, Sane, Slots, Kept, Filed, Queued, Exclusive, Accounted;
    ReleaseIsNeverIgnored(s, Unreserve(t));
    var n := Next(s, Unreserve(t));
    forall x ensures Reserved(n.counts, x) == |Slots(n.threads, x)| + |Kept(n, x)| {
      SlotsAfter(s, t, n.threads[t], x);
      SameKept(s, n, x);
    }
  }

  lemma StepKeepsConserved(s: State, step: Step)
    requires Inv(s) && Enabled(s, step)
    ensures Conserved(Next(s, step))
  {
    hide Inv, Conserved, Next, At, Worked;
    match step
    case Settle(t, raised) => SettleKeepsConserved(s, t, raised);
    case ReserveLive(t) => ReserveKeepsConserved(s, t);
    case InstallOk(t) => InstallKeepsConserved(s, t);
    case Unreserve(t) => UnreserveKeepsConserved(s, t);
    case _ => OtherStepsKeepConserved(s, step);
  }

  lemma StepKeepsSane(s: State, step: Step)
    requires Inv(s) && Enabled(s, step)
    ensures Sane(Next(s, step).counts, s.caps) && Next(s, step).caps == s.caps
  {
    hide WorkersAfter, IdleAfter, PcAfter, AcquiringAfter, LiveAfter, LostAfter, ReleasedAfter, Sane, Conserved;
    hide Exclusive, Accounted, Queued, Counted;
    match step
    case Settle(t, _) => ReleaseKeepsSane(s.counts, s.caps, s.workers[JobOf(PcOf(s, t)).pending.value].key.tenant);
    case ReserveLive(t) => ReserveKeepsSane(s.counts, s.caps, PcOf(s, t).key.tenant);
    case Unreserve(t) => ReleaseKeepsSane(s.counts, s.caps, PcOf(s, t).key.tenant);
    case _ =>
  }

  /** Only Mark and Settle change what is pending. */
  lemma OthersKeepPending(s: State, step: Step)
    requires Enabled(s, step) && Acts(step) && !step.Mark? && !step.Settle?
    ensures PendingOf(PcAfter(s, step)) == PendingOf(PcBefore(s, step))
    ensures PendingOf(PcBefore(s, step)).Some? ==> step.t in s.threads
  {}

  lemma OthersKeepDestroyed(s: State, step: Step)
    requires Exclusive(s) && Enabled(s, step) && !step.Mark?
    ensures s.workers.Keys <= WorkersAfter(s, step).Keys
    ensures forall w :: w in s.workers ==> WorkersAfter(s, step)[w].destroyed == s.workers[w].destroyed
    ensures forall w :: w in WorkersAfter(s, step) && w !in s.workers ==> !WorkersAfter(s, step)[w].destroyed
  {
    hide AcquiringAfter, CountsAfter, GatesAfter, IdleAfter, LiveAfter, LostAfter, PcAfter, ReleasedAfter;
  }

  lemma OtherStepsKeepAccounted(s: State, step: Step)
    requires Inv(s) && Enabled(s, step) && !step.Mark? && !step.Settle?
    ensures Accounted(Next(s, step))
  {
    hide Exclusive, Worked, Sane, Conserved, Counted, Filed, Queued, PendingOf, AcquiringAfter, At, CountsAfter;
    hide GatesAfter, IdleAfter, LiveAfter, LostAfter, PcAfter, WorkersAfter;
    if Acts(step) { OthersKeepPending(s, step); }
    OthersKeepDestroyed(s, step);
    var n := Next(s, step);
    forall w | Pends(n, w) ensures exists t :: t in n.threads && PendingOf(n.threads[t]) == Some(w) {
      assert Pends(s, w);
      var t :| t in s.threads && PendingOf(s.threads[t]) == Some(w);
      assert PendingOf(n.threads[t]) == Some(w);
    }
  }

  lemma MarkKeepsAccounted(s: State, t: Thread)
    requires Inv(s) && Enabled(s, Mark(t))
    ensures Accounted(Next(s, Mark(t)))
  {
    hide Sane, Conserved, Counted, Filed, Queued, Exclusive, IdleAfter, CountsAfter, AcquiringAfter, LiveAfter;
    var n := Next(s, Mark(t));
    forall w | Pends(n, w) ensures exists u :: u in n.threads && PendingOf(n.threads[u]) == Some(w) {
      if Pends(s, w) {
        var u :| u in s.threads && PendingOf(s.threads[u]) == Some(w);
        assert PendingOf(n.threads[u]) == Some(w);
      } else {
        assert PendingOf(n.threads[t]) == Some(w);
      }
    }
  }

  lemma SettleKeepsAccounted(s: State, t: Thread, raised: bool)
    requires Inv(s) && Enabled(s, Settle(t, raised))
    ensures Accounted(Next(s, Settle(t, raised)))
  {
    hide Sane, Conserved, Counted, Filed, Queued, Exclusive, IdleAfter, CountsAfter, AcquiringAfter, LiveAfter;
    var n := Next(s, Settle(t, raised));
    assert Pends(s, PendingOf(s.threads[t]).value);
    forall w | Pends(n, w) ensures exists u :: u in n.threads && PendingOf(n.threads[u]) == Some(w) {
      assert Pends(s, w);
      var u :| u in s.threads && PendingOf(s.threads[u]) == Some(w);
      assert PendingOf(n.threads[u]) == Some(w);
    }
  }

  lemma StepKeepsAccounted(s: State, step: Step)
    requires Inv(s) && Enabled(s, step)
    ensures Accounted(Next(s, step))
  {
    match step
    case Mark(t) => MarkKeepsAccounted(s, t);
    case Settle(t, raised) => SettleKeepsAccounted(s, t, raised);
    case _ => OtherStepsKeepAccounted(s, step);
  }

  lemma WorkersKeepKeys(s: State, step: Step)
    requires Exclusive(s) && Enabled(s, step)
    ensures s.workers.Keys <= WorkersAfter(s, step).Keys
    ensures forall w :: w in s.workers ==> WorkersAfter(s, step)[w].key == s.workers[w].key
    ensures !step.InstallOk? ==> WorkersAfter(s, step).Keys == s.workers.Keys
  {
    hide AcquiringAfter, CountsAfter, GatesAfter, IdleAfter, LiveAfter, LostAfter, PcAfter, ReleasedAfter;
  }

  lemma IdleStaysFiled(s: State, step: Step)
    requires Filed(s.workers, s.idle) && Exclusive(s) && Enabled(s, step)
    ensures Filed(s.workers, IdleAfter(s, step))
  {
    hide AcquiringAfter, CountsAfter, GatesAfter, LiveAfter, LostAfter, PcAfter, ReleasedAfter, WorkersAfter;
    match step
    case Pop(t, bad) => PopStaysFiled(s.workers, s.idle, PcOf(s, t).key, bad);
    case Sweep(t, queue) => SweepStaysFiled(s.workers, s.idle, Elements(queue));
    case Append(t) => assert OwnedBy(s.threads[t]).Some?;
    case _ =>
  }

  lemma StepKeepsFiled(s: State, step: Step)
    requires Inv(s) && Enabled(s, step)
    ensures Filed(Next(s, step).workers, Next(s, step).idle)
  {
    hide Sane, Conserved, Counted, Accounted, Exclusive, Queued, AcquiringAfter, At, CountsAfter, GatesAfter;
    hide IdleAfter, LiveAfter, LostAfter, PcAfter, ReleasedAfter, WorkersAfter;
    WorkersKeepKeys(s, step);
    IdleStaysFiled(s, step);
  }

  /** What a step puts into a destroy loop are workers. */
  lemma QueuedAreWorkers(s: State, step: Step)
    requires Filed(s.workers, s.idle) && Exclusive(s) && Queued(s) && Enabled(s, step) && Acts(step)
    ensures Loops(PcAfter(s, step)) ==> forall w :: w in JobOf(PcAfter(s, step)).queue ==> w in s.workers
  {
    if step.Pop? {
      PopStaysFiled(s.workers, s.idle, PcOf(s, step.t).key, step.bad);
    } else if step.Sweep? {
      IdleAreKnown(s.workers, s.idle);
    } else {
      hide Filed, Exclusive, PopFrom;
    }
  }

  lemma StepKeepsQueued(s: State, step: Step)
    requires Inv(s) && Enabled(s, step)
    ensures Queued(Next(s, step))
  {
    hide Sane, Conserved, Counted, Accounted, Filed, Exclusive, AcquiringAfter, At, CountsAfter, GatesAfter;
    hide IdleAfter, LiveAfter, LostAfter, PcAfter, ReleasedAfter, WorkersAfter;
    WorkersKeepKeys(s, step);
    if Acts(step) { QueuedAreWorkers(s, step); }
  }

  /** Steps that hand nothing over: a thread keeps what it has, or lets go of it. */
  predicate HandsNothing(step: Step) {
    !step.Pop? && !step.InstallOk? && !step.Append? && !step.Sweep? && !step.Appear?
  }

  lemma OwnedStays(s: State, step: Step)
    requires Enabled(s, step) && HandsNothing(step) && Acts(step)
    ensures var before, after := PcBefore(s, step), PcAfter(s, step);
            OwnedBy(after).Some? ==>
              step.t in s.threads && OwnedBy(after) == OwnedBy(before) && before.key == after.key
  {}

  predicate BootsNothing(step: Step) { !step.InstallOk? && !step.Appear? }

  lemma BootsStays(s: State, step: Step)
    requires Enabled(s, step) && BootsNothing(step) && Acts(step)
    ensures var before, after := PcBefore(s, step), PcAfter(s, step);
            Boots(after).Some? ==> step.t in s.threads && Boots(after) == Boots(before)
  {
    hide PopFrom, IsIdle, Reserve;
  }

  /** Owners after one thread moved, or none. */
  lemma OwnedFrame(s: State, n: State, t: Thread)
    requires OwnedOnce(s) && n.idle == s.idle && s.workers.Keys <= n.workers.Keys
    requires forall w :: w in s.workers ==> n.workers[w].key == s.workers[w].key
    requires forall u :: u in n.threads && u != t ==> u in s.threads && n.threads[u] == s.threads[u]
    requires t in n.threads && OwnedBy(n.threads[t]).Some? ==>
               t in s.threads && OwnedBy(s.threads[t]) == OwnedBy(n.threads[t]) && n.threads[t].key == s.threads[t].key
    ensures OwnedOnce(n)
  {
    hide OwnedBy, IsIdle;
    forall u | u in n.threads && OwnedBy(n.threads[u]).Some? ensures Held(n, n.threads[u]) {
      assert Held(s, s.threads[u]);
    }
  }

  lemma BootsFrame(s: State, n: State, t: Thread)
    requires BootsFresh(s) && n.workers.Keys == s.workers.Keys && s.seen <= n.seen
    requires forall u :: u in n.threads && u != t ==> u in s.threads && n.threads[u] == s.threads[u]
    requires t in n.threads && Boots(n.threads[t]).Some? ==>
               t in s.threads && Boots(s.threads[t]) == Boots(n.threads[t])
    ensures BootsFresh(n)
  {
    hide Boots;
  }

  lemma IdleKept(s: State, step: Step)
    requires Enabled(s, step) && HandsNothing(step)
    ensures IdleAfter(s, step) == s.idle
  {}

  lemma OthersKeepOwned(s: State, step: Step)
    requires Exclusive(s) && Enabled(s, step) && HandsNothing(step)
    ensures OwnedOnce(Next(s, step))
  {
    hide OwnedBy, OwnedOnce, BootsFresh, IsIdle, Worked, Enabled, HandsNothing, IdleAfter;
    IdleKept(s, step);
    hide AcquiringAfter, At, CountsAfter, GatesAfter, LiveAfter, LostAfter, PcAfter, ReleasedAfter, WorkersAfter;
    WorkersKeepKeys(s, step);
    if Acts(step) { OwnedStays(s, step); }
    OwnedFrame(s, Next(s, step), if Acts(step) then step.t else 0);
  }

  lemma OthersKeepBoots(s: State, step: Step)
    requires Exclusive(s) && Enabled(s, step) && BootsNothing(step)
    ensures BootsFresh(Next(s, step))
  {
    hide Boots, BootsFresh, OwnedOnce, IdleAfter, Worked, Enabled;
    hide AcquiringAfter, At, CountsAfter, GatesAfter, LiveAfter, LostAfter, PcAfter, ReleasedAfter, WorkersAfter;
    WorkersKeepKeys(s, step);
    if Acts(step) { BootsStays(s, step); }
    BootsFrame(s, Next(s, step), if Acts(step) then step.t else 0);
  }

  lemma PopKeepsOwned(s: State, t: Thread, bad: set<WorkerId>)
    requires Exclusive(s) && Filed(s.workers, s.idle) && Enabled(s, Pop(t, bad))
    ensures OwnedOnce(Next(s, Pop(t, bad)))
  {
    hide CountsAfter, AcquiringAfter, LiveAfter, LostAfter, ReleasedAfter, BootsFresh;
    hide IsIdle, PopFrom, AfterPop, Filed;
    var key := PcOf(s, t).key;
    PopStaysFiled(s.workers, s.idle, key, bad);
    PopTakes(s.workers, s.idle, key, bad);
    PopSplits(Bucket(s.idle, key), bad);
    BucketIsIdle(s.idle, key);
  }

  lemma InstallKeepsExclusive(s: State, t: Thread)
    requires Exclusive(s) && Filed(s.workers, s.idle) && Enabled(s, InstallOk(t))
    ensures Exclusive(Next(s, InstallOk(t)))
  {
    hide CountsAfter, AcquiringAfter, LiveAfter, LostAfter, ReleasedAfter, IsIdle;
    IdleAreKnown(s.workers, s.idle);
  }

  lemma AppendKeepsOwned(s: State, t: Thread)
    requires Exclusive(s) && Enabled(s, Append(t))
    ensures OwnedOnce(Next(s, Append(t)))
  {
    hide CountsAfter, AcquiringAfter, LiveAfter, LostAfter, ReleasedAfter, IsIdle, AfterAppend, BootsFresh;
    AppendAdds(s.idle, PcOf(s, t).key, PcOf(s, t).worker);
  }

  lemma SweepKeepsOwned(s: State, t: Thread, queue: seq<WorkerId>)
    requires Exclusive(s) && Enabled(s, Sweep(t, queue))
    ensures OwnedOnce(Next(s, Sweep(t, queue)))
  {
    hide CountsAfter, AcquiringAfter, LiveAfter, LostAfter, ReleasedAfter, IsIdle, Pool.Sweep, Elements;
    hide BootsFresh;
    SweepLeaves(s.idle, Elements(queue));
  }

  lemma AppearKeepsExclusive(s: State, t: Thread, sandbox: WorkerId)
    requires Exclusive(s) && Enabled(s, Appear(t, sandbox))
    ensures Exclusive(Next(s, Appear(t, sandbox)))
  {}

  lemma StepKeepsExclusive(s: State, step: Step)
    requires Inv(s) && Enabled(s, step)
    ensures Exclusive(Next(s, step))
  {
    hide OwnedOnce, BootsFresh, Next, AcquiringAfter, At, CountsAfter, GatesAfter, IdleAfter, LiveAfter;
    hide LostAfter, PcAfter, ReleasedAfter, WorkersAfter;
    match step
    case Pop(t, bad) => PopKeepsOwned(s, t, bad); OthersKeepBoots(s, step);
    case InstallOk(t) => InstallKeepsExclusive(s, t);
    case Append(t) => AppendKeepsOwned(s, t); OthersKeepBoots(s, step);
    case Sweep(t, queue) => SweepKeepsOwned(s, t, queue); OthersKeepBoots(s, step);
    case Appear(t, sandbox) => AppearKeepsExclusive(s, t, sandbox);
    case _ => OthersKeepOwned(s, step); OthersKeepBoots(s, step);
  }

  lemma StepKeeps(s: State, step: Step)
    requires Inv(s) && Enabled(s, step)
    ensures Inv(Next(s, step)) && Next(s, step).caps == s.caps
  {
    hide Sane, Conserved, Counted, Accounted, Exclusive, Queued, Filed, Next, Enabled;
    StepKeepsSane(s, step);
    StepKeepsCounted(s, step);
    StepKeepsConserved(s, step);
    StepKeepsAccounted(s, step);
    StepKeepsFiled(s, step);
    StepKeepsExclusive(s, step);
    StepKeepsQueued(s, step);
  }

  /** Every interleaving keeps the invariants. */
  lemma {:induction false} EveryRun(s: State, steps: seq<Step>)
    requires Inv(s) && Legal(s, steps)
    ensures Inv(Execute(s, steps)) && Execute(s, steps).caps == s.caps
    decreases |steps|
  {
    if steps != [] {
      StepKeeps(s, steps[0]);
      EveryRun(Next(s, steps[0]), steps[1..]);
    }
  }

  lemma FromTheStart(caps: Caps, steps: seq<Step>)
    requires 0 < caps.live && 0 < caps.perTenant && Legal(Initial(caps), steps)
    ensures Inv(Execute(Initial(caps), steps))
  {
    EveryRun(Initial(caps), steps);
  }

  /** Reservations in creation and workers not yet given back, in all and per tenant,
      are what the accounts say, and stay within both caps. */
  lemma Conservation(s: State, tenant: string)
    requires Inv(s)
    ensures |Slots(s.threads, None)| + |Kept(s, None)| == s.counts.live <= s.caps.live
    ensures |Slots(s.threads, Some(tenant))| + |Kept(s, Some(tenant))| <= s.caps.perTenant
    ensures forall w :: w in s.workers && !s.workers[w].destroyed ==>
              w in Kept(s, None) && w in Kept(s, Some(s.workers[w].key.tenant))
  {
    assert Reserved(s.counts, None) == |Slots(s.threads, None)| + |Kept(s, None)|;
    assert Reserved(s.counts, Some(tenant)) == |Slots(s.threads, Some(tenant))| + |Kept(s, Some(tenant))|;
  }

  /** The worker an acquire pops was idle under the requested key, and alive and
      healthy at that moment. */
  lemma PoppedForRequest(s: State, t: Thread, bad: set<WorkerId>)
    requires Inv(s) && Enabled(s, Pop(t, bad))
    ensures var got := OwnedBy(PcOf(Next(s, Pop(t, bad)), t));
            got.Some? ==>
              && got.value in s.workers && IsIdle(s.idle, got.value)
              && s.workers[got.value].key == PcOf(s, t).key
              && s.workers[got.value].healthy && !s.workers[got.value].destroyed
  {
    hide Sane, Conserved, Counted, Accounted, Queued;
    PopStaysFiled(s.workers, s.idle, PcOf(s, t).key, bad);
    PopSplits(Bucket(s.idle, PcOf(s, t).key), bad);
    BucketIsIdle(s.idle, PcOf(s, t).key);
  }

  /** No worker is checked out twice or idle while checked out. */
  lemma CheckedOutOnce(s: State, t: Thread, u: Thread)
    requires Inv(s) && PcOf(s, t).Holding?
    ensures var w := PcOf(s, t).worker;
            && w in s.workers && s.workers[w].key == PcOf(s, t).key && !IsIdle(s.idle, w)
            && (t != u ==> OwnedBy(PcOf(s, u)) != Some(w))
  {
    assert OwnedBy(s.threads[t]) == Some(PcOf(s, t).worker);
  }

  // ----- drain

  predicate NoUngate(steps: seq<Step>, runtime: string) {
    forall i :: 0 <= i < |steps| ==> steps[i] != Ungate(runtime)
  }

  /** Gated, and nobody inside acquire. */
  predicate Drained(s: State, runtime: string) {
    runtime in s.gates && CountOf(s, runtime) == 0
  }

  predicate NoSandbox(s: State, runtime: string) {
    forall b :: b in s.live ==> s.live[b] != runtime
  }

  lemma {:induction false} GateStays(s: State, steps: seq<Step>, runtime: string)
    requires runtime in s.gates && Legal(s, steps) && NoUngate(steps, runtime)
    ensures runtime in Execute(s, steps).gates
    decreases |steps|
  {
    if steps != [] {
      assert steps[0] != Ungate(runtime);
      GateStays(Next(s, steps[0]), steps[1..], runtime);
    }
  }

  lemma NobodyInside(s: State, step: Step, runtime: string)
    requires Counted(s) && Enabled(s, step) && CountOf(s, runtime) == 0
    ensures Acts(step) && PcOf(s, step.t).Acquiring? ==> PcOf(s, step.t).key.runtime != runtime
  {
    if Acts(step) && PcOf(s, step.t).Acquiring? {
      assert step.t in Acquirers(s.threads, PcOf(s, step.t).key.runtime);
    }
  }

  lemma StepStaysGated(s: State, step: Step, runtime: string)
    requires Inv(s) && Enabled(s, step) && Drained(s, runtime) && step != Ungate(runtime)
    ensures Drained(Next(s, step), runtime)
  {
    hide WorkersAfter, IdleAfter, CountsAfter, ReleasedAfter, LiveAfter, LostAfter, PcAfter;
    hide Sane, Conserved, Accounted, Exclusive, Queued, Filed;
    NobodyInside(s, step, runtime);
  }

  /** Behind a gate with no acquire in flight, a sandbox can appear only late, from a
      create call that was lost before; no create call is lost any more. */
  lemma StepStaysDrained(s: State, step: Step, runtime: string)
    requires Inv(s) && Enabled(s, step) && Drained(s, runtime) && step != Ungate(runtime)
    ensures Drained(Next(s, step), runtime)
    ensures NoSandbox(s, runtime) ==>
              (NoSandbox(Next(s, step), runtime) <==> !(step.Late? && step.runtime == runtime))
    ensures runtime !in s.lost ==> runtime !in Next(s, step).lost
  {
    hide WorkersAfter, IdleAfter, CountsAfter, ReleasedAfter, PcAfter, AcquiringAfter, GatesAfter;
    hide Sane, Conserved, Accounted, Exclusive, Queued, Filed;
    NobodyInside(s, step, runtime);
    StepStaysGated(s, step, runtime);
    hide Counted, Drained;
    if step.Late? { assert LiveAfter(s, step)[step.sandbox] == step.runtime; }
  }

  lemma {:induction false} StaysDrained(s: State, steps: seq<Step>, runtime: string)
    requires Inv(s) && Legal(s, steps) && Drained(s, runtime) && NoUngate(steps, runtime)
    ensures Drained(Execute(s, steps), runtime)
    ensures NoSandbox(s, runtime) && runtime !in s.lost ==> NoSandbox(Execute(s, steps), runtime)
    decreases |steps|
  {
    if steps != [] {
      assert steps[0] != Ungate(runtime);
      StepKeeps(s, steps[0]);
      StepStaysDrained(s, steps[0], runtime);
      StaysDrained(Next(s, steps[0]), steps[1..], runtime);
    }
  }

  /** A status report reads the row, then the acquire counters, then the backend's
      list, with arbitrary steps in between. If the row was there, the counter zero
      and the list empty, then until the row is removed no acquire for the runtime is
      in flight, and no sandbox of it exists if no create call was lost by then. */
  lemma DrainTheorem(s: State, first: seq<Step>, second: seq<Step>, third: seq<Step>, runtime: string)
    requires Inv(s) && runtime in s.gates
    requires Legal(s, first) && NoUngate(first, runtime)
    requires CountOf(Execute(s, first), runtime) == 0
    requires Legal(Execute(s, first), second) && NoUngate(second, runtime)
    requires NoSandbox(Execute(Execute(s, first), second), runtime)
    requires Legal(Execute(Execute(s, first), second), third) && NoUngate(third, runtime)
    ensures var listed := Execute(Execute(s, first), second);
            var later := Execute(listed, third);
            && Acquirers(later.threads, runtime) == {}
            && (runtime !in listed.lost ==> NoSandbox(later, runtime))
  {
    var listed := Execute(Execute(s, first), second);
    GateStays(s, first, runtime);
    EveryRun(s, first);
    StaysDrained(Execute(s, first), second, runtime);
    EveryRun(Execute(s, first), second);
    StaysDrained(listed, third, runtime);
    EveryRun(listed, third);
    assert Counted(Execute(listed, third));
  }

  /** Nothing of the runtime will exist, whatever happens short of removing the row. */
  ghost predicate StaysEmpty(s: State, runtime: string) {
    forall steps :: Legal(s, steps) && NoUngate(steps, runtime) ==> NoSandbox(Execute(s, steps), runtime)
  }

  /** The condition is exact: with a lost create call outstanding, a sandbox can come. */
  lemma DrainedExactly(s: State, runtime: string)
    requires Inv(s) && Drained(s, runtime) && NoSandbox(s, runtime)
    ensures StaysEmpty(s, runtime) <==> runtime !in s.lost
  {
    forall steps | runtime !in s.lost && Legal(s, steps) && NoUngate(steps, runtime)
      ensures NoSandbox(Execute(s, steps), runtime)
    { StaysDrained(s, steps, runtime); }
    if runtime in s.lost {
      var sandbox := NewName(s.seen);
      var late := Late(sandbox, runtime);
      assert Enabled(s, late);
      StepStaysDrained(s, late, runtime);
      OneStep(s, late);
      assert [late][0] == late;
      assert !NoSandbox(Execute(s, [late]), runtime);
    }
  }

  lemma OneStep(s: State, step: Step)
    requires Enabled(s, step)
    ensures Legal(s, [step]) && Execute(s, [step]) == Next(s, step)
  {
    assert [step][1..] == [];
    assert Execute(Next(s, step), []) == Next(s, step);
  }

  /** There is always another name. */
  lemma NewName(used: set<WorkerId>) returns (name: WorkerId)
    ensures name !in used
  {
    var n := LongerThan(used);
    name := seq(n, _ => 'x');
  }

  lemma LongerThan(used: set<WorkerId>) returns (n: nat)
    ensures forall w :: w in used ==> |w| < n
    decreases used
  {
    n := 0;
    if used != {} {
      var w :| w in used;
      n := LongerThan(used - {w});
      if |w| >= n { n := |w| + 1; }
    }
  }
}
