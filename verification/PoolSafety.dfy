/** What holds in every reachable state of the pool, and over whole runs. */
module PoolSafety {
  import opened Wrappers
  import opened Pool
  import opened Protocol
  import L = Ledger
  import C = Control
  import R = Refinement

  /** A thread about to block still holds the mutex, so its list is still empty. */
  predicate ParkingInv(s: State) {
    forall r | 0 <= r < |s.requests| && s.requests[r].phase.Parking? && s.requests[r].lang in s.lists ::
      s.lists[s.requests[r].lang] == []
  }

  /** No lost wake-up: whoever sleeps although its list is not empty is about to be notified. */
  predicate WakeInv(s: State) {
    forall r | 0 <= r < |s.requests| && s.requests[r].phase.Asleep? && s.requests[r].lang in s.lists ::
      s.lists[s.requests[r].lang] != [] ==> HeadPhase(s).Pushed?
  }

  ghost predicate Inv(s: State) {
    C.ControlInv(s) && L.BooksInv(R.BooksOf(s)) && ParkingInv(s) && WakeInv(s)
  }

  /** Steps that touch no list keep it so that a thread about to block has an empty list. */
  lemma ParkingStep(s: State, step: Step)
    requires C.ControlInv(s) && ParkingInv(s) && Enabled(s, step)
    ensures ParkingInv(C.Moved(s, step))
  {
    var r, s' := C.Actor(s, step), C.Moved(s, step);
    C.StepMoves(s, step);
    assert C.Proper(s.lists, s.requests[r]);
    forall t | 0 <= t < |s'.requests| && s'.requests[t].phase.Parking? && s'.requests[t].lang in s'.lists
      ensures s'.lists[s'.requests[t].lang] == []
    {
      if t != r {
        assert s'.requests[t] == s.requests[t];
        assert s.holder == Some(t);
        assert s'.lists == s.lists;
      }
    }
  }

  /** While the current job is about to notify, only its own step ends that. */
  lemma NoticeStays(s: State, step: Step)
    requires Enabled(s, step) && !step.Notify? && HeadPhase(s).Pushed?
    ensures HeadPhase(Apply(s, step)).Pushed?
  {
  }

  /** A step that fills a list leaves a notice. */
  lemma FillingLeavesNotice(s: State, step: Step)
    requires Enabled(s, step) && C.Proper(s.lists, s.requests[C.Actor(s, step)])
    ensures
      || HeadPhase(Apply(s, step)).Pushed?
      || Apply(s, step).lists == s.lists
      || (step.Test? && s.requests[step.r].lang in s.lists && s.lists[s.requests[step.r].lang] != []
          && Apply(s, step).lists == Popped(s.lists, s.requests[step.r].lang))
  {
  }

  lemma WakeStep(s: State, step: Step)
    requires C.ControlInv(s) && ParkingInv(s) && WakeInv(s) && Enabled(s, step) && !step.Notify?
    ensures WakeInv(Apply(s, step))
  {
    var r, s' := C.Actor(s, step), Apply(s, step);
    C.StepMoves(s, step);
    assert C.Proper(s.lists, s.requests[r]);
    FillingLeavesNotice(s, step);
    if HeadPhase(s).Pushed? {
      NoticeStays(s, step);
    }
    forall t | 0 <= t < |s'.requests| && s'.requests[t].phase.Asleep? && s'.requests[t].lang in s'.lists
      ensures s'.lists[s'.requests[t].lang] != [] ==> HeadPhase(s').Pushed?
    {
      if t != r {
        assert s'.requests[t] == s.requests[t];
      }
    }
  }

  lemma WakingWakes(s: State)
    ensures ParkingInv(s) ==> ParkingInv(WokenAll(s))
    ensures WakeInv(WokenAll(s))
  {
  }

  lemma LeaseKindsOf(s: State)
    requires L.BooksInv(R.BooksOf(s))
    ensures C.LeaseKinds(s)
  {
    var b := R.BooksOf(s);
    forall r | 0 <= r < |s.requests| && s.requests[r].lease.Some?
      ensures s.requests[r].lease.value.kind == s.requests[r].lang
    {
      assert L.Proper(b, b.accounts[r]);
    }
  }

  lemma BooksStep(b: L.Books, e: L.Event)
    requires L.BooksInv(b) && L.Possible(b, e)
    ensures L.BooksInv(L.Happen(b, e))
  {
    L.ProperStep(b, e);
    L.SoundStep(b, e);
    L.UniqueStep(b, e);
    L.TracedStep(b, e);
  }

  /** Every step keeps the invariant. */
  lemma InvStep(s: State, step: Step)
    requires Inv(s) && Enabled(s, step)
    ensures Inv(Apply(s, step))
  {
    LeaseKindsOf(s);
    C.ControlStep(s, step);
    R.StepRefines(s, step);
    if R.EventOf(s, step).Some? {
      BooksStep(R.BooksOf(s), R.EventOf(s, step).value);
    }
    ParkingStep(s, step);
    if step.Notify? {
      WakingWakes(C.Moved(s, step));
    } else {
      WakeStep(s, step);
    }
  }

  lemma InitBooks(s: State)
    requires Init(s)
    ensures L.BooksInv(R.BooksOf(s))
  {
    var b := R.BooksOf(s);
    forall r | 0 <= r < |s.requests|
      ensures b.accounts[r].lease == None && b.accounts[r].stage == L.Waiting && L.Proper(b, b.accounts[r])
    {
      assert s.requests[r] in s.requests;
    }
    forall l, i | l in b.lists && 0 <= i < |b.lists[l]| ensures b.lists[l][i].kind == l {
      assert Position(s.lists, l, i) && Genuine(s.lists, s.docker, s.issued, l, i);
    }
    forall p ensures L.Sound(b, p) {
      if p.InList? && Position(s.lists, p.l, p.i) {
        assert Genuine(s.lists, s.docker, s.issued, p.l, p.i);
      }
    }
    forall p, q | L.IdAt(b, p).Some? && L.IdAt(b, p) == L.IdAt(b, q) ensures p == q {
      assert p.InList? && q.InList? && Position(s.lists, p.l, p.i) && Position(s.lists, q.l, q.i);
    }
    forall id | id in b.issued ensures exists p :: L.IdAt(b, p) == Some(id) {
      assert Placed(s.lists, id);
      var l, i: nat :| Position(s.lists, l, i) && s.lists[l][i].id == id;
      assert L.IdAt(b, L.InList(l, i)) == Some(id);
    }
  }

  lemma InitInv(s: State)
    requires Init(s)
    ensures Inv(s)
  {
    C.InitControl(s);
    InitBooks(s);
    assert forall r | 0 <= r < |s.requests| :: s.requests[r] in s.requests;
  }

  /** Every reachable state satisfies the invariant. */
  lemma {:induction false} InvRun(s: State, steps: seq<Step>)
    requires Inv(s) && Valid(s, steps)
    ensures Inv(Run(s, steps))
    decreases |steps|
  {
    if steps != [] {
      InvStep(s, steps[0]);
      InvRun(Apply(s, steps[0]), steps[1..]);
    }
  }
}
