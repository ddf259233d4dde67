/** The promises of the pool over whole runs. */
module PoolTheorems {
  import opened Wrappers
  import opened Protocol
  import opened PoolSafety
  import L = Ledger
  import C = Control
  import R = Refinement

  lemma {:induction false} RunSplits(s: State, a: seq<Step>, b: seq<Step>)
    requires Valid(s, a + b)
    ensures Valid(s, a) && Valid(Run(s, a), b) && Run(s, a + b) == Run(Run(s, a), b)
    decreases |a|
  {
    if a == [] {
      assert a + b == b;
    } else {
      assert (a + b)[1..] == a[1..] + b;
      RunSplits(Apply(s, a[0]), a[1..], b);
    }
  }

  /** `step` leads from `s` to `s'`. */
  predicate Leads(s: State, step: Step, s': State) {
    Enabled(s, step) && Apply(s, step) == s'
  }

  lemma RunFirst(s: State, step: Step, s': State, rest: seq<Step>)
    requires Leads(s, step, s') && Valid(s', rest)
    ensures Valid(s, [step] + rest) && Run(s, [step] + rest) == Run(s', rest)
  {
  }

  lemma PrefixIsValid(s: State, steps: seq<Step>, i: nat)
    requires Valid(s, steps) && i <= |steps|
    ensures Valid(s, steps[..i])
  {
    assert steps == steps[..i] + steps[i..];
    RunSplits(s, steps[..i], steps[i..]);
  }

  /** The state after the first `i` steps of a run. */
  function After(s: State, steps: seq<Step>, i: nat): State
    requires Valid(s, steps) && i <= |steps|
  {
    PrefixIsValid(s, steps, i);
    Run(s, steps[..i])
  }

  /** A thread that sleeps although its list has a container is about to be notified. */
  lemma NoLostWakeUp(s: State, steps: seq<Step>, r: nat)
    requires Init(s) && Valid(s, steps) && r < |Run(s, steps).requests|
    ensures
      var t := Run(s, steps);
      var q := t.requests[r];
      q.phase.Asleep? ==> q.lang in t.lists && (t.lists[q.lang] != [] ==> HeadPhase(t).Pushed?)
  {
    InitInv(s);
    InvRun(s, steps);
    assert C.Proper(Run(s, steps).lists, Run(s, steps).requests[r]);
  }

  /** At most one thread, a request or the job thread, is inside the critical sections. */
  lemma MutualExclusion(s: State, steps: seq<Step>, r: nat, r': nat)
    requires Init(s) && Valid(s, steps) && r < |Run(s, steps).requests| && r' < |Run(s, steps).requests|
    ensures C.HoldsMutex(Run(s, steps).requests[r].phase) && C.HoldsMutex(Run(s, steps).requests[r'].phase) ==> r == r'
  {
    InitInv(s);
    InvRun(s, steps);
  }

  lemma {:induction false} KeysRun(s: State, steps: seq<Step>)
    requires Valid(s, steps)
    ensures Run(s, steps).lists.Keys == s.lists.Keys
    decreases |steps|
  {
    if steps != [] {
      C.KeysStep(s, steps[0]);
      KeysRun(Apply(s, steps[0]), steps[1..]);
    }
  }

  /** The languages never change, so `storage.at` never throws, and a request is refused only for a language without
      list. */
  lemma KeysAreStable(s: State, steps: seq<Step>, r: nat)
    requires Init(s) && Valid(s, steps) && r < |Run(s, steps).requests|
    ensures Run(s, steps).lists.Keys == s.lists.Keys
    ensures Run(s, steps).requests[r].phase != Threw
    ensures Run(s, steps).requests[r].phase == Refused ==> Run(s, steps).requests[r].lang !in s.lists
    ensures Run(s, steps).requests[r].phase !in {Start, Refused} ==> Run(s, steps).requests[r].lang in s.lists
  {
    InitInv(s);
    InvRun(s, steps);
    KeysRun(s, steps);
    assert C.Proper(Run(s, steps).lists, Run(s, steps).requests[r]);
  }

  /** Every container is at one place only: one position of one list, one lease, or one replacement on its way. */
  lemma ContainersAreExclusive(s: State, steps: seq<Step>, p: L.Place, q: L.Place)
    requires Init(s) && Valid(s, steps)
    requires L.IdAt(R.BooksOf(Run(s, steps)), p).Some?
    ensures L.IdAt(R.BooksOf(Run(s, steps)), p) == L.IdAt(R.BooksOf(Run(s, steps)), q) ==> p == q
  {
    InitInv(s);
    InvRun(s, steps);
  }

  lemma LeaseStep(s: State, step: Step, r: nat)
    requires Enabled(s, step) && r < |s.requests| && C.Proper(s.lists, s.requests[r]) && s.requests[r].lease.Some?
    ensures r < |Apply(s, step).requests| == |s.requests| && Apply(s, step).requests[r].lease == s.requests[r].lease
  {
  }

  lemma {:induction false} LeaseRun(s: State, steps: seq<Step>, r: nat)
    requires Inv(s) && Valid(s, steps) && r < |s.requests| && s.requests[r].lease.Some?
    ensures r < |Run(s, steps).requests| && Run(s, steps).requests[r].lease == s.requests[r].lease
    decreases |steps|
  {
    if steps != [] {
      assert C.Proper(s.lists, s.requests[r]);
      LeaseStep(s, steps[0], r);
      InvStep(s, steps[0]);
      LeaseRun(Apply(s, steps[0]), steps[1..], r);
    }
  }

  /** No container is ever handed to two requests, at whatever times, and none returns to a list. */
  lemma ContainersAreUsedOnce(s: State, steps: seq<Step>, i: nat, r: nat, p: L.Place)
    requires Init(s) && Valid(s, steps) && i <= |steps|
    requires r < |After(s, steps, i).requests| && After(s, steps, i).requests[r].lease.Some?
    ensures L.IdAt(R.BooksOf(Run(s, steps)), p) == Some(After(s, steps, i).requests[r].lease.value.id)
       <==> p == L.Lease(r)
  {
    InitInv(s);
    assert steps == steps[..i] + steps[i..];
    RunSplits(s, steps[..i], steps[i..]);
    InvRun(s, steps[..i]);
    LeaseRun(After(s, steps, i), steps[i..], r);
    InvRun(s, steps);
    assert L.IdAt(R.BooksOf(Run(s, steps)), L.Lease(r)) == Some(After(s, steps, i).requests[r].lease.value.id);
  }
}
