/** Every step of the protocol is an event of the books or leaves them as they are. */
module Refinement {
  import opened Wrappers
  import opened Protocol
  import L = Ledger
  import C = Control

  function StageOf(p: Phase): L.Stage {
    match p
    case Leased => L.Holding
    case Running => L.Holding
    case RemoveQueued => L.Holding
    case Removed => L.Restoring
    case CreateQueued => L.Restoring
    case Created(x) => L.Made(x)
    case Adding(x) => L.Made(x)
    case Pushed => L.Returned
    case Done => L.Returned
    case Lost => L.Gone
    case _ => L.Waiting
  }

  function AccountOf(q: Request): L.Account {
    L.Account(q.lang, StageOf(q.phase), q.lease, q.image, q.leaked)
  }

  function AccountsOf(rs: seq<Request>): seq<L.Account> {
    seq(|rs|, i requires 0 <= i < |rs| => AccountOf(rs[i]))
  }

  /** The books of a state of the protocol. */
  function BooksOf(s: State): L.Books {
    L.Books(AccountsOf(s.requests), s.lists, s.docker, s.issued)
  }

  function EventOf(s: State, step: Step): Option<L.Event>
    requires Enabled(s, step)
  {
    var r := C.Actor(s, step);
    match step
    case Test(_) =>
      var l := s.requests[r].lang;
      if l in s.lists && s.lists[l] != [] then Some(L.Take(r)) else None
    case Inspect(_, ok) => Some(L.Note(r, Inspected(s, r, ok).requests[r].image))
    case RemoveJob(ok) => Some(L.Remove(r, ok))
    case CreateJob(id) => Some(L.Launch(r, id))
    case CreateFail => Some(L.Lose(r))
    case Push => Some(L.Return(r))
    case _ => None
  }

  lemma AccountsOfUpdate(rs: seq<Request>, r: nat, q: Request)
    requires r < |rs|
    ensures AccountsOf(rs[r := q]) == AccountsOf(rs)[r := AccountOf(q)]
  {
  }

  lemma WakingKeepsBooks(s: State)
    ensures BooksOf(WokenAll(s)) == BooksOf(s)
  {
  }

  lemma EventPossible(s: State, step: Step)
    requires Enabled(s, step) && C.Proper(s.lists, s.requests[C.Actor(s, step)])
    ensures EventOf(s, step).Some? ==> L.Possible(BooksOf(s), EventOf(s, step).value)
  {
  }

  /** In `s'` the shared parts and the account of `r` are those of `b'`, and `b'` differs from `b` for `r` only. */
  predicate AgreesAt(s': State, b: L.Books, b': L.Books, r: nat) {
    && s'.lists == b'.lists && s'.docker == b'.docker && s'.issued == b'.issued
    && r < |s'.requests| == |b.accounts| == |b'.accounts|
    && AccountOf(s'.requests[r]) == b'.accounts[r] && b'.accounts == b.accounts[r := b'.accounts[r]]
  }

  lemma ThreadEvents(s: State, step: Step)
    requires Enabled(s, step) && EventOf(s, step).Some? && L.Possible(BooksOf(s), EventOf(s, step).value)
    requires step.Test? || step.Inspect?
    ensures AgreesAt(Apply(s, step), BooksOf(s), L.Happen(BooksOf(s), EventOf(s, step).value), step.r)
  {
  }

  lemma DockerEvents(s: State, step: Step)
    requires Enabled(s, step) && EventOf(s, step).Some? && L.Possible(BooksOf(s), EventOf(s, step).value)
    requires step.RemoveJob? || step.CreateJob?
    ensures AgreesAt(Apply(s, step), BooksOf(s), L.Happen(BooksOf(s), EventOf(s, step).value), s.jobs[0])
  {
  }

  lemma JobEvents(s: State, step: Step)
    requires Enabled(s, step) && EventOf(s, step).Some? && L.Possible(BooksOf(s), EventOf(s, step).value)
    requires step.CreateFail? || step.Push?
    ensures AgreesAt(Apply(s, step), BooksOf(s), L.Happen(BooksOf(s), EventOf(s, step).value), s.jobs[0])
  {
  }

  lemma ThreadStutters(s: State, step: Step)
    requires Enabled(s, step) && C.Proper(s.lists, s.requests[C.Actor(s, step)]) && EventOf(s, step).None?
    requires step.Begin? || step.Lock? || step.Test? || step.Park? || step.Wake?
    ensures AgreesAt(Apply(s, step), BooksOf(s), BooksOf(s), step.r)
  {
  }

  lemma PostStutters(s: State, step: Step)
    requires Enabled(s, step) && (step.Finish? || step.PostCreate?)
    ensures AgreesAt(Apply(s, step), BooksOf(s), BooksOf(s), step.r)
  {
  }

  lemma JobStutters(s: State, step: Step)
    requires Enabled(s, step) && (step.AddLock? || step.Notify?)
    ensures AgreesAt(C.Moved(s, step), BooksOf(s), BooksOf(s), s.jobs[0])
  {
  }

  /** The step system refines the books. */
  lemma StepRefines(s: State, step: Step)
    requires C.ControlInv(s) && Enabled(s, step)
    ensures EventOf(s, step).Some? ==> L.Possible(BooksOf(s), EventOf(s, step).value)
    ensures BooksOf(Apply(s, step)) ==
      match EventOf(s, step)
      case None => BooksOf(s)
      case Some(e) => L.Happen(BooksOf(s), e)
  {
    var r, s' := C.Actor(s, step), C.Moved(s, step);
    C.StepMoves(s, step);
    assert C.Proper(s.lists, s.requests[r]);
    AccountsOfUpdate(s.requests, r, s'.requests[r]);
    EventPossible(s, step);
    match step {
      case Test(_) => if EventOf(s, step).Some? { ThreadEvents(s, step); } else { ThreadStutters(s, step); }
      case Inspect(_, _) => ThreadEvents(s, step);
      case RemoveJob(_) => DockerEvents(s, step);
      case CreateJob(_) => DockerEvents(s, step);
      case CreateFail => JobEvents(s, step);
      case Push => JobEvents(s, step);
      case Finish(_) => PostStutters(s, step);
      case PostCreate(_) => PostStutters(s, step);
      case AddLock => JobStutters(s, step);
      case Notify => JobStutters(s, step);
      case _ => ThreadStutters(s, step);
    }
    WakingKeepsBooks(s');
  }
}
