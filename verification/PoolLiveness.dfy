/** Every run of the pool ends, and where it can end. */
module PoolLiveness {
  import opened Protocol
  import opened Sums
  import C = Control

  /** How many phases a request still has before it, all phases of waiting for a container taken as one. */
  function Major(p: Phase): nat {
    match p
    case Start => 10
    case Locking => 9
    case Testing => 9
    case Parking => 9
    case Asleep => 9
    case Leased => 8
    case Running => 7
    case RemoveQueued => 6
    case Removed => 5
    case CreateQueued => 4
    case Created(_) => 3
    case Adding(_) => 2
    case Pushed => 1
    case _ => 0
  }

  /** How far a waiting request is from going back to sleep. */
  function Minor(p: Phase): nat {
    match p
    case Locking => 3
    case Testing => 2
    case Parking => 1
    case _ => 0
  }

  function MajorOf(): Request -> nat { (q: Request) => Major(q.phase) }

  function MinorOf(): Request -> nat { (q: Request) => Minor(q.phase) }

  /** A notification may put every sleeper three phases back, but it ends a request for good. */
  function Weight(s: State): nat {
    Sum(s.requests, MajorOf()) * (3 * |s.requests| + 1) + Sum(s.requests, MinorOf())
  }

  lemma MinorIsBounded(rs: seq<Request>)
    ensures Sum(rs, MinorOf()) <= 3 * |rs|
  {
  }

  lemma Lighter(a: nat, a': nat, b: nat, b': nat, n: nat)
    requires b' <= 3 * n && (a' < a || (a' == a && b' < b))
    ensures a' * (3 * n + 1) + b' < a * (3 * n + 1) + b
  {
    if a' < a {
      assert a' * (3 * n + 1) <= (a - 1) * (3 * n + 1);
    }
  }

  /** From `p` to `p'` a request makes progress. */
  predicate Advances(p: Phase, p': Phase) {
    Major(p') < Major(p) || (Major(p') == Major(p) && Minor(p') < Minor(p))
  }

  lemma ThreadAdvances(s: State, step: Step)
    requires Enabled(s, step) && (step.Begin? || step.Lock? || step.Test? || step.Park?)
    ensures Advances(s.requests[step.r].phase, Apply(s, step).requests[step.r].phase)
  {
  }

  lemma LesseeAdvances(s: State, step: Step)
    requires Enabled(s, step) && (step.Inspect? || step.Finish? || step.PostCreate?)
    ensures Advances(s.requests[step.r].phase, Apply(s, step).requests[step.r].phase)
  {
  }

  lemma JobAdvances(s: State, step: Step)
    requires Enabled(s, step) && (step.RemoveJob? || step.CreateJob? || step.CreateFail? || step.AddLock? || step.Push?)
    ensures Advances(s.requests[s.jobs[0]].phase, Apply(s, step).requests[s.jobs[0]].phase)
  {
  }

  /** The actor makes progress with every step but a spurious wake-up. */
  lemma ActorAdvances(s: State, step: Step)
    requires Enabled(s, step) && C.Actor(s, step) < |s.requests| == |C.Moved(s, step).requests|
    ensures
      var p, p' := s.requests[C.Actor(s, step)].phase, C.Moved(s, step).requests[C.Actor(s, step)].phase;
      if step.Wake? then Major(p') == Major(p) && Minor(p') == Minor(p) + 3
      else if step.Notify? then Major(p') < Major(p)
      else Advances(p, p')
  {
    match step
    case Wake(_) =>
    case Notify =>
    case Inspect(_, _) => LesseeAdvances(s, step);
    case Finish(_) => LesseeAdvances(s, step);
    case PostCreate(_) => LesseeAdvances(s, step);
    case Begin(_) => ThreadAdvances(s, step);
    case Lock(_) => ThreadAdvances(s, step);
    case Test(_) => ThreadAdvances(s, step);
    case Park(_) => ThreadAdvances(s, step);
    case _ => JobAdvances(s, step);
  }

  lemma WakingKeepsMajor(s: State)
    ensures Sum(WokenAll(s).requests, MajorOf()) == Sum(s.requests, MajorOf())
  {
    SumSame(WokenAll(s).requests, s.requests, MajorOf(), MajorOf());
  }

  /** Every step lightens the state, but a spurious wake-up makes it heavier by three. */
  lemma StepLightens(s: State, step: Step)
    requires Enabled(s, step)
    ensures |Apply(s, step).requests| == |s.requests|
    ensures if step.Wake? then Weight(Apply(s, step)) == Weight(s) + 3 else Weight(Apply(s, step)) < Weight(s)
  {
    var r, s', t := C.Actor(s, step), C.Moved(s, step), Apply(s, step);
    C.StepMoves(s, step);
    ActorAdvances(s, step);
    SumUpdate(s.requests, r, s'.requests[r], MajorOf());
    SumUpdate(s.requests, r, s'.requests[r], MinorOf());
    MinorIsBounded(t.requests);
    WakingKeepsMajor(s');
    if !step.Wake? {
      Lighter(Sum(s.requests, MajorOf()), Sum(t.requests, MajorOf()),
              Sum(s.requests, MinorOf()), Sum(t.requests, MinorOf()), |s.requests|);
    }
  }

  function SpuriousWakeUps(steps: seq<Step>): nat {
    Sum(steps, (step: Step) => Bit(step.Wake?))
  }

  lemma {:induction false} RunLightens(s: State, steps: seq<Step>)
    requires Valid(s, steps)
    ensures |steps| + Weight(Run(s, steps)) <= Weight(s) + 4 * SpuriousWakeUps(steps)
    decreases |steps|
  {
    if steps != [] {
      StepLightens(s, steps[0]);
      RunLightens(Apply(s, steps[0]), steps[1..]);
    }
  }

  lemma Times(a: nat, b: nat, c: nat)
    requires a <= b
    ensures a * c <= b * c
  {
  }

  lemma InitWeight(s: State)
    requires Init(s)
    ensures Weight(s) <= 10 * |s.requests| * (3 * |s.requests| + 1)
  {
    SumBound(s.requests, MajorOf(), 10);
    SumBound(s.requests, MinorOf(), 0);
    Times(Sum(s.requests, MajorOf()), 10 * |s.requests|, 3 * |s.requests| + 1);
  }

  /** Every run is finite, with or without failures: its length is bounded by the number of requests and of spurious
      wake-ups. */
  lemma RunsAreFinite(s: State, steps: seq<Step>)
    requires Init(s) && Valid(s, steps)
    ensures |steps| <= 10 * |s.requests| * (3 * |s.requests| + 1) + 4 * SpuriousWakeUps(steps)
  {
    RunLightens(s, steps);
    InitWeight(s);
  }
}
