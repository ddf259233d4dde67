/** Deadlock freedom of the pool, and the one way in which a request can wait for ever. */
module PoolProgress {
  import opened Wrappers
  import opened Pool
  import opened Protocol
  import opened Sums
  import opened PoolSafety
  import opened PoolTheorems
  import opened PoolCapacity
  import opened PoolLiveness
  import A = Accounting
  import C = Control
  import R = Refinement

  /** Neither a spurious wake-up nor a failure of Docker. */
  predicate Helpful(step: Step) {
    !(step.Wake? || step.CreateFail? || step == RemoveJob(false) || (step.Inspect? && !step.ok))
  }

  predicate Finished(q: Request) {
    q.phase.Done? || q.phase.Lost? || q.phase.Refused?
  }

  /** Nothing can happen any more but spurious wake-ups: where a Docker call can fail it can also succeed. */
  ghost predicate AtRest(s: State) {
    forall step :: Enabled(s, step) ==> !Helpful(step)
  }

  lemma FreshId(s: State) returns (id: Id)
    ensures Fresh(s, id)
  {
    id := UnusedId(s.docker.Keys + s.issued.Keys);
  }

  /** Whoever holds the mutex can go on. */
  lemma HolderCanStep(s: State) returns (step: Step)
    requires C.ControlInv(s) && s.holder.Some?
    ensures Enabled(s, step) && Helpful(step)
  {
    var r := s.holder.value;
    assert C.HoldsMutex(s.requests[r].phase);
    step := if s.requests[r].phase.Testing? then Test(r) else if s.requests[r].phase.Parking? then Park(r) else Push;
    if s.requests[r].phase.Adding? {
      var i :| 0 <= i < |s.jobs| && s.jobs[i] == r;
      assert i == 0;
    }
  }

  /** While a job is queued, the job thread or the holder of the mutex can go on. */
  lemma JobCanStep(s: State) returns (step: Step)
    requires C.ControlInv(s) && s.jobs != []
    ensures Enabled(s, step) && Helpful(step)
  {
    var r := s.jobs[0];
    var p := s.requests[r].phase;
    assert r in s.jobs && C.OnQueue(p) && C.Proper(s.lists, s.requests[r]);
    var id := FreshId(s);
    step := match p case RemoveQueued => RemoveJob(true) case CreateQueued => CreateJob(id)
            case Created(_) => AddLock case Adding(_) => Push case _ => Notify;
    if p.Created? && s.holder.Some? {
      step := HolderCanStep(s);
    }
  }

  /** A request that is neither finished nor asleep can go on, or somebody else can. */
  lemma AwakeCanStep(s: State, r: nat) returns (step: Step)
    requires C.ControlInv(s) && r < |s.requests| && !Finished(s.requests[r]) && !s.requests[r].phase.Asleep?
    ensures Enabled(s, step) && Helpful(step)
  {
    var p := s.requests[r].phase;
    assert C.Proper(s.lists, s.requests[r]);
    if C.OnQueue(p) {
      assert r in s.jobs;
      step := JobCanStep(s);
    } else if p.Locking? && s.holder.Some? {
      step := HolderCanStep(s);
    } else {
      step := match p case Start => Begin(r) case Locking => Lock(r) case Testing => Test(r) case Parking => Park(r)
              case Leased => Inspect(r, true) case Running => Finish(r) case _ => PostCreate(r);
    }
  }

  /** A sleeper whose language has not lost all its containers is not left alone. */
  lemma SleeperIsServed(s: State, r: nat) returns (step: Step)
    requires Inv(s) && r < |s.requests| && s.requests[r].phase.Asleep? && s.requests[r].lang in s.lists
    requires Losses(s, s.requests[r].lang) < A.Total(R.BooksOf(s), s.requests[r].lang)
    ensures Enabled(s, step) && Helpful(step)
  {
    var l := s.requests[r].lang;
    if s.lists[l] != [] {
      step := Notify;
    } else {
      OwedSum(s.requests, l);
      var t := SumPositive(s.requests, BorrowBit(l));
      step := AwakeCanStep(s, t);
    }
  }

  lemma TotalIsCapacity(s: State, steps: seq<Step>, l: Language)
    requires Init(s) && Valid(s, steps) && l in s.lists
    ensures l in Run(s, steps).lists && A.Total(R.BooksOf(Run(s, steps)), l) == |s.lists[l]|
  {
    CapacityIsConserved(s, steps, l);
    OwedSum(Run(s, steps).requests, l);
  }

  /** Nothing is ruled out: a sleeper may wake for no reason, and where a call to Docker can succeed, with whatever
      fresh id, it can fail as well. */
  predicate Open(t: State, r: nat, id: Id) {
    && (Enabled(t, Wake(r)) <==> r < |t.requests| && t.requests[r].phase.Asleep?)
    && (Enabled(t, Inspect(r, true)) <==> r < |t.requests| && t.requests[r].phase.Leased?)
    && (Enabled(t, Inspect(r, false)) <==> Enabled(t, Inspect(r, true)))
    && (Enabled(t, RemoveJob(true)) <==> HeadPhase(t).RemoveQueued?)
    && (Enabled(t, RemoveJob(false)) <==> Enabled(t, RemoveJob(true)))
    && (Enabled(t, CreateFail) <==> HeadPhase(t).CreateQueued?)
    && (Enabled(t, CreateJob(id)) <==> HeadPhase(t).CreateQueued? && Fresh(t, id))
  }

  lemma ProperIsOpen(t: State, r: nat, id: Id)
    requires r < |t.requests| ==> C.Proper(t.lists, t.requests[r])
    requires t.jobs != [] ==> t.jobs[0] < |t.requests| && C.Proper(t.lists, t.requests[t.jobs[0]])
    ensures Open(t, r, id)
  {
  }

  lemma NothingIsRuledOut(s: State, steps: seq<Step>, r: nat, id: Id)
    requires Init(s) && Valid(s, steps)
    ensures Open(Run(s, steps), r, id)
  {
    InitInv(s);
    InvRun(s, steps);
    ProperIsOpen(Run(s, steps), r, id);
  }

  /** `notify_all` leaves nobody asleep, whatever the language. */
  lemma NotifyWakesAll(s: State, r: nat)
    requires Enabled(s, Notify) && r < |s.requests|
    ensures
      var q, q' := s.requests[r], Apply(s, Notify).requests[r];
      q'.phase == if q.phase.Asleep? then Locking else if r == s.jobs[0] then Done else q.phase
  {
  }

  /** While a request is unfinished and its language has not lost all its containers, some step is enabled,
      with no help from failures or chance. */
  lemma NoDeadlock(s: State, steps: seq<Step>, r: nat) returns (step: Step)
    requires Init(s) && Valid(s, steps)
    requires r < |Run(s, steps).requests| && !Finished(Run(s, steps).requests[r])
    requires
      var l := Run(s, steps).requests[r].lang;
      l in s.lists ==> Losses(Run(s, steps), l) < |s.lists[l]|
    ensures Enabled(Run(s, steps), step) && Helpful(step)
  {
    var t := Run(s, steps);
    InitInv(s);
    InvRun(s, steps);
    KeysRun(s, steps);
    assert C.Proper(t.lists, t.requests[r]);
    if t.requests[r].phase.Asleep? {
      TotalIsCapacity(s, steps, t.requests[r].lang);
      step := SleeperIsServed(t, r);
    } else {
      step := AwakeCanStep(t, r);
    }
  }

  lemma LangStep(s: State, step: Step, r: nat)
    requires Enabled(s, step) && r < |s.requests|
    ensures r < |Apply(s, step).requests| == |s.requests| && Apply(s, step).requests[r].lang == s.requests[r].lang
  {
    C.StepMoves(s, step);
  }

  lemma {:induction false} LangRun(s: State, steps: seq<Step>, r: nat)
    requires Valid(s, steps) && r < |s.requests|
    ensures r < |Run(s, steps).requests| == |s.requests| && Run(s, steps).requests[r].lang == s.requests[r].lang
    decreases |steps|
  {
    if steps != [] {
      LangStep(s, steps[0], r);
      LangRun(Apply(s, steps[0]), steps[1..], r);
    }
  }

  /** Where a run comes to rest: every request is finished, or asleep for a language all of whose containers are
      lost. */
  lemma AtRestMeans(s: State, steps: seq<Step>, r: nat)
    requires Init(s) && Valid(s, steps) && AtRest(Run(s, steps)) && r < |Run(s, steps).requests|
    ensures
      var q := Run(s, steps).requests[r];
      Finished(q) || (q.phase.Asleep? && q.lang in s.lists && Losses(Run(s, steps), q.lang) == |s.lists[q.lang]|)
  {
    var t := Run(s, steps);
    var q := t.requests[r];
    InitInv(s);
    InvRun(s, steps);
    KeysRun(s, steps);
    assert C.Proper(t.lists, q);
    if !Finished(q) {
      if q.lang in s.lists {
        CapacityIsConserved(s, steps, q.lang);
      }
      if q.phase.Asleep? {
        if Losses(t, q.lang) < |s.lists[q.lang]| {
          var step := NoDeadlock(s, steps, r);
        }
      } else {
        var step := AwakeCanStep(t, r);
      }
    }
  }

  lemma ActorLoses(s: State, step: Step, l: Language)
    requires Enabled(s, step) && C.Actor(s, step) < |s.requests| == |C.Moved(s, step).requests|
    ensures LossBit(l)(C.Moved(s, step).requests[C.Actor(s, step)]) >= LossBit(l)(s.requests[C.Actor(s, step)])
    ensures !step.CreateFail? ==>
              LossBit(l)(C.Moved(s, step).requests[C.Actor(s, step)]) == LossBit(l)(s.requests[C.Actor(s, step)])
  {
  }

  lemma LossesStep(s: State, step: Step, l: Language)
    requires Enabled(s, step)
    ensures Losses(Apply(s, step), l) >= Losses(s, l)
    ensures !step.CreateFail? ==> Losses(Apply(s, step), l) == Losses(s, l)
  {
    var r, s' := C.Actor(s, step), C.Moved(s, step);
    C.StepMoves(s, step);
    ActorLoses(s, step, l);
    SumUpdate(s.requests, r, s'.requests[r], LossBit(l));
    SumSame(WokenAll(s').requests, s'.requests, LossBit(l), LossBit(l));
  }

  /** Losses are for good, and only failed launches cause them. */
  lemma {:induction false} LossesRun(s: State, steps: seq<Step>, l: Language)
    requires Valid(s, steps)
    ensures Losses(Run(s, steps), l) >= Losses(s, l)
    ensures CreateFail !in steps ==> Losses(Run(s, steps), l) == Losses(s, l)
    decreases |steps|
  {
    if steps != [] {
      LossesStep(s, steps[0], l);
      LossesRun(Apply(s, steps[0]), steps[1..], l);
    }
  }

  lemma RequestIsServed(s: State, steps: seq<Step>, r: nat)
    requires Init(s) && Valid(s, steps) && CreateFail !in steps && AtRest(Run(s, steps)) && r < |Run(s, steps).requests|
    ensures Run(s, steps).requests[r].phase == if Run(s, steps).requests[r].lang in s.lists then Done else Refused
  {
    var t := Run(s, steps);
    var l := t.requests[r].lang;
    LossesRun(s, steps, l);
    SumBound(s.requests, LossBit(l), 0);
    SumAtLeast(t.requests, LossBit(l), r);
    AtRestMeans(s, steps, r);
    InitInv(s);
    InvRun(s, steps);
    KeysRun(s, steps);
    assert C.Proper(t.lists, t.requests[r]);
  }

  /** Where all requests are served or refused, all lists are full again. */
  lemma ListsAreFull(s: State, steps: seq<Step>, l: Language)
    requires Init(s) && Valid(s, steps) && l in s.lists
    requires forall q | q in Run(s, steps).requests :: q.phase.Done? || q.phase.Refused?
    ensures l in Run(s, steps).lists && |Run(s, steps).lists[l]| == |s.lists[l]|
  {
    CapacityIsConserved(s, steps, l);
    SumBound(Run(s, steps).requests, BorrowBit(l), 0);
    SumBound(Run(s, steps).requests, LossBit(l), 0);
  }

  /** If every launch succeeds, a run ends with all requests served or refused, and with all lists full again. */
  lemma AllAreServed(s: State, steps: seq<Step>, l: Language)
    requires Init(s) && Valid(s, steps) && CreateFail !in steps && AtRest(Run(s, steps))
    ensures forall q | q in Run(s, steps).requests :: q.phase == if q.lang in s.lists then Done else Refused
    ensures l in s.lists ==> l in Run(s, steps).lists && |Run(s, steps).lists[l]| == |s.lists[l]|
  {
    var t := Run(s, steps);
    forall q | q in t.requests ensures q.phase == if q.lang in s.lists then Done else Refused {
      var r :| 0 <= r < |t.requests| && t.requests[r] == q;
      RequestIsServed(s, steps, r);
    }
    if l in s.lists {
      ListsAreFull(s, steps, l);
    }
  }

  lemma {:induction false} RunJoins(s: State, a: seq<Step>, b: seq<Step>)
    requires Valid(s, a) && Valid(Run(s, a), b)
    ensures Valid(s, a + b) && Run(s, a + b) == Run(Run(s, a), b)
    decreases |a|
  {
    if a == [] {
      assert a + b == b;
    } else {
      assert (a + b)[1..] == a[1..] + b;
      RunJoins(Apply(s, a[0]), a[1..], b);
    }
  }

  /** Every state can be brought to rest without failures. */
  lemma {:induction false} RestIsReachable(s: State) returns (steps: seq<Step>)
    ensures Valid(s, steps) && AtRest(Run(s, steps)) && forall step | step in steps :: Helpful(step)
    decreases Weight(s)
  {
    if AtRest(s) {
      steps := [];
    } else {
      var step :| Enabled(s, step) && Helpful(step);
      StepLightens(s, step);
      var rest := RestIsReachable(Apply(s, step));
      steps := [step] + rest;
      assert steps[1..] == rest;
    }
  }

  /** Some continuation gives the request a container. */
  ghost predicate MayBeServed(s: State, r: nat) {
    exists steps :: Valid(s, steps) && r < |Run(s, steps).requests| && Run(s, steps).requests[r].lease.Some?
  }

  /** All containers of `l` are lost. */
  predicate Drained(s: State, l: Language) {
    l in s.lists && Losses(s, l) == A.Total(R.BooksOf(s), l)
  }

  lemma DrainedStep(s: State, step: Step, l: Language)
    requires Inv(s) && Enabled(s, step) && Drained(s, l)
    ensures Drained(Apply(s, step), l) && s.lists[l] == []
  {
    LossesStep(s, step, l);
    TotalRun(s, [step], l);
    assert Run(s, [step]) == Apply(s, step);
    OwedSum(s.requests, l);
    OwedSum(Apply(s, step).requests, l);
  }

  lemma NothingTaken(s: State, step: Step, r: nat)
    requires Enabled(s, step) && r < |s.requests| && s.requests[r].lease == None
    requires s.requests[r].lang in s.lists && s.lists[s.requests[r].lang] == []
    ensures r < |Apply(s, step).requests| && Apply(s, step).requests[r].lease == None
  {
    C.StepMoves(s, step);
  }

  lemma {:induction false} NeverServed(s: State, steps: seq<Step>, r: nat)
    requires Inv(s) && Valid(s, steps)
    requires r < |s.requests| && s.requests[r].lease == None && Drained(s, s.requests[r].lang)
    ensures r < |Run(s, steps).requests| && Run(s, steps).requests[r].lease == None
    decreases |steps|
  {
    if steps != [] {
      DrainedStep(s, steps[0], s.requests[r].lang);
      NothingTaken(s, steps[0], r);
      LangStep(s, steps[0], r);
      InvStep(s, steps[0]);
      NeverServed(Apply(s, steps[0]), steps[1..], r);
    }
  }

  lemma ServedAtRest(s: State, steps: seq<Step>, more: seq<Step>, r: nat)
    requires Init(s) && Valid(s, steps) && Valid(Run(s, steps), more) && AtRest(Run(Run(s, steps), more))
    requires forall step | step in more :: Helpful(step)
    requires r < |s.requests| && r < |Run(s, steps).requests| && s.requests[r].lang in s.lists
    requires Losses(Run(s, steps), s.requests[r].lang) < |s.lists[s.requests[r].lang]|
    ensures r < |Run(Run(s, steps), more).requests| && Run(Run(s, steps), more).requests[r].lease.Some?
  {
    var t := Run(Run(s, steps), more);
    RunJoins(s, steps, more);
    LangRun(s, steps + more, r);
    assert CreateFail !in more;
    LossesRun(Run(s, steps), more, s.requests[r].lang);
    AtRestMeans(s, steps + more, r);
    InitInv(s);
    InvRun(s, steps + more);
    KeysRun(s, steps + more);
    assert C.Proper(t.lists, t.requests[r]);
  }

  /**
   A request that waits for a container can still get one exactly as long as some launch for its
   language has not failed: once the failed launches equal the startup capacity it waits for ever.
   */
  lemma StuckExactlyWhenDrained(s: State, steps: seq<Step>, r: nat)
    requires Init(s) && Valid(s, steps) && r < |s.requests| && r < |Run(s, steps).requests|
    requires s.requests[r].lang in s.lists && Run(s, steps).requests[r].lease == None
    ensures MayBeServed(Run(s, steps), r) <==> Losses(Run(s, steps), s.requests[r].lang) < |s.lists[s.requests[r].lang]|
  {
    var t, l := Run(s, steps), s.requests[r].lang;
    InitInv(s);
    InvRun(s, steps);
    LangRun(s, steps, r);
    TotalIsCapacity(s, steps, l);
    CapacityIsConserved(s, steps, l);
    if Losses(t, l) < |s.lists[l]| {
      var more := RestIsReachable(t);
      ServedAtRest(s, steps, more, r);
    } else {
      forall more | Valid(t, more) ensures r < |Run(t, more).requests| ==> Run(t, more).requests[r].lease == None {
        NeverServed(t, more, r);
      }
    }
  }
}
