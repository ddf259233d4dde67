/** What every step of the pool keeps about the mutex, the job queue, the keys and the languages. */
module Control {
  import opened Wrappers
  import opened Pool
  import opened Protocol

  predicate HoldsMutex(p: Phase) {
    p.Testing? || p.Parking? || p.Adding?
  }

  predicate OnQueue(p: Phase) {
    p.RemoveQueued? || p.CreateQueued? || p.Created? || p.Adding? || p.Pushed?
  }

  /** The phases in which a job waits for its turn. */
  predicate Waits(p: Phase) {
    p.RemoveQueued? || p.CreateQueued?
  }

  predicate HasLease(p: Phase) {
    !(p.Start? || p.Locking? || p.Testing? || p.Parking? || p.Asleep? || p.Refused? || p.Threw?)
  }

  predicate Makes(p: Phase) {
    p.Created? || p.Adding?
  }

  /** One request on its own: it is refused if its language has no list, and it never misses a list afterwards. */
  predicate Proper(lists: Lists, q: Request) {
    && (q.lease.Some? <==> HasLease(q.phase))
    && (Makes(q.phase) ==> q.phase.made.kind == q.lang)
    && (if q.phase.Refused? then q.lang !in lists else q.phase.Start? || q.lang in lists)
    && !q.phase.Threw?
  }

  predicate MutexInv(s: State) {
    && (s.holder.Some? ==> s.holder.value < |s.requests|)
    && forall r | 0 <= r < |s.requests| :: HoldsMutex(s.requests[r].phase) <==> s.holder == Some(r)
  }

  predicate QueueInv(s: State) {
    && (forall r | 0 <= r < |s.requests| :: OnQueue(s.requests[r].phase) <==> r in s.jobs)
    && (forall i | 0 <= i < |s.jobs| :: s.jobs[i] < |s.requests|)
    && (forall i, j | 0 <= i < j < |s.jobs| :: s.jobs[i] != s.jobs[j])
    && (forall i | 0 < i < |s.jobs| :: Waits(s.requests[s.jobs[i]].phase))
  }

  predicate ProperInv(s: State) {
    forall r | 0 <= r < |s.requests| :: Proper(s.lists, s.requests[r])
  }

  predicate ControlInv(s: State) {
    MutexInv(s) && QueueInv(s) && ProperInv(s)
  }

  lemma InitControl(s: State)
    requires Init(s)
    ensures ControlInv(s)
  {
    assert forall r | 0 <= r < |s.requests| :: s.requests[r] in s.requests;
  }

  /** The request a step moves. */
  function Actor(s: State, step: Step): nat {
    match step
    case Begin(r) => r
    case Lock(r) => r
    case Test(r) => r
    case Park(r) => r
    case Wake(r) => r
    case Inspect(r, _) => r
    case Finish(r) => r
    case PostCreate(r) => r
    case _ => if s.jobs == [] then 0 else s.jobs[0]
  }

  /** The state after a step, before `notify_all` wakes the sleepers. */
  function Moved(s: State, step: Step): State
    requires Enabled(s, step)
  {
    if step.Notify? then Move(s, s.jobs[0], Done).(jobs := s.jobs[1..]) else Apply(s, step)
  }

  /** Only request `r` moves. */
  predicate OnlyMoves(s: State, s': State, r: nat) {
    r < |s.requests| == |s'.requests| && s'.requests == s.requests[r := s'.requests[r]]
  }

  predicate HolderMoves(s: State, s': State, r: nat)
    requires r < |s.requests| == |s'.requests|
  {
    var p, p' := s.requests[r].phase, s'.requests[r].phase;
    || (s'.holder == s.holder && HoldsMutex(p') == HoldsMutex(p))
    || (s.holder == None && s'.holder == Some(r) && HoldsMutex(p'))
    || (s'.holder == None && HoldsMutex(p) && !HoldsMutex(p'))
  }

  predicate JobsMove(s: State, s': State, r: nat)
    requires r < |s.requests| == |s'.requests|
  {
    var p, p' := s.requests[r].phase, s'.requests[r].phase;
    || (s'.jobs == s.jobs && OnQueue(p') == OnQueue(p) && (OnQueue(p) ==> s.jobs != [] && s.jobs[0] == r))
    || (s'.jobs == s.jobs + [r] && !OnQueue(p) && Waits(p'))
    || (s.jobs != [] && s.jobs[0] == r && s'.jobs == s.jobs[1..] && !OnQueue(p'))
  }

  lemma StepMoves(s: State, step: Step)
    requires Enabled(s, step)
    ensures OnlyMoves(s, Moved(s, step), Actor(s, step))
  {
  }

  lemma StepMovesHolder(s: State, step: Step)
    requires Enabled(s, step) && Actor(s, step) < |s.requests| && Proper(s.lists, s.requests[Actor(s, step)])
    requires |Moved(s, step).requests| == |s.requests|
    ensures HolderMoves(s, Moved(s, step), Actor(s, step))
  {
  }

  lemma StepMovesJobs(s: State, step: Step)
    requires Enabled(s, step) && Actor(s, step) < |s.requests| && Proper(s.lists, s.requests[Actor(s, step)])
    requires |Moved(s, step).requests| == |s.requests|
    ensures JobsMove(s, Moved(s, step), Actor(s, step))
  {
  }

  lemma MutexKept(s: State, s': State, r: nat)
    requires MutexInv(s) && OnlyMoves(s, s', r) && HolderMoves(s, s', r)
    ensures MutexInv(s')
  {
  }

  lemma QueueKept(s: State, s': State, r: nat)
    requires QueueInv(s) && OnlyMoves(s, s', r) && JobsMove(s, s', r)
    ensures QueueInv(s')
  {
  }

  /** The set of languages is fixed by startup. */
  lemma KeysStep(s: State, step: Step)
    requires Enabled(s, step)
    ensures Apply(s, step).lists.Keys == Moved(s, step).lists.Keys == s.lists.Keys
  {
  }

  /** The steps of the job thread. */
  predicate OfJob(step: Step) {
    step.RemoveJob? || step.CreateJob? || step.CreateFail? || step.AddLock? || step.Push? || step.Notify?
  }

  lemma RequestStepProper(s: State, step: Step)
    requires Enabled(s, step) && !OfJob(step) && Actor(s, step) < |s.requests| == |Apply(s, step).requests|
    requires Apply(s, step).lists.Keys == s.lists.Keys && Proper(s.lists, s.requests[Actor(s, step)])
    ensures Proper(Apply(s, step).lists, Apply(s, step).requests[Actor(s, step)])
  {
  }

  lemma JobStepProper(s: State, step: Step)
    requires Enabled(s, step) && OfJob(step) && Actor(s, step) < |s.requests| == |Moved(s, step).requests|
    requires Moved(s, step).lists.Keys == s.lists.Keys && Proper(s.lists, s.requests[Actor(s, step)])
    requires step.CreateJob? ==> s.requests[Actor(s, step)].lease.value.kind == s.requests[Actor(s, step)].lang
    ensures Proper(Moved(s, step).lists, Moved(s, step).requests[Actor(s, step)])
  {
  }

  lemma ProperKept(s: State, s': State, r: nat)
    requires ProperInv(s) && OnlyMoves(s, s', r) && s'.lists.Keys == s.lists.Keys && Proper(s'.lists, s'.requests[r])
    ensures ProperInv(s')
  {
  }

  /** Waking the sleepers touches neither mutex, nor queue, nor leases. */
  lemma WakingKeepsControl(s: State)
    requires ControlInv(s)
    ensures ControlInv(WokenAll(s))
  {
  }

  /** In every phase the lease of a request is of the request's language. */
  predicate LeaseKinds(s: State) {
    forall r | 0 <= r < |s.requests| && s.requests[r].lease.Some? ::
      s.requests[r].lease.value.kind == s.requests[r].lang
  }

  lemma ControlStep(s: State, step: Step)
    requires ControlInv(s) && LeaseKinds(s) && Enabled(s, step)
    ensures ControlInv(Apply(s, step))
  {
    var r, s' := Actor(s, step), Moved(s, step);
    StepMoves(s, step);
    assert Proper(s.lists, s.requests[r]);
    StepMovesHolder(s, step);
    StepMovesJobs(s, step);
    KeysStep(s, step);
    if OfJob(step) {
      JobStepProper(s, step);
    } else {
      RequestStepProper(s, step);
    }
    MutexKept(s, s', r);
    QueueKept(s, s', r);
    ProperKept(s, s', r);
    if step.Notify? {
      WakingKeepsControl(s');
    }
  }
}
