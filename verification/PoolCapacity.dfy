/** What the pool conserves over whole runs: capacity, images, and a bound on existing containers. */
module PoolCapacity {
  import opened Pool
  import opened Protocol
  import opened Sums
  import opened PoolSafety
  import opened PoolTheorems
  import L = Ledger
  import A = Accounting
  import C = Control
  import R = Refinement

  /** The container of `l` this request took is leased, or its replacement is still to come. */
  predicate Borrows(q: Request, l: Language) {
    q.lang == l && C.HasLease(q.phase) && !q.phase.Pushed? && !q.phase.Done? && !q.phase.Lost?
  }

  function BorrowBit(l: Language): Request -> nat {
    (q: Request) => Bit(Borrows(q, l))
  }

  function LossBit(l: Language): Request -> nat {
    (q: Request) => Bit(q.lang == l && q.phase.Lost?)
  }

  function LeakBit(l: Language): Request -> nat {
    (q: Request) => Bit(q.lang == l && q.leaked)
  }

  /** How many requests for `l` have a container out. */
  function Borrowed(s: State, l: Language): nat { Sum(s.requests, BorrowBit(l)) }

  /** How many containers of `l` were never replaced. */
  function Losses(s: State, l: Language): nat { Sum(s.requests, LossBit(l)) }

  /** How many containers of `l` Docker failed to remove. */
  function Leaks(s: State, l: Language): nat { Sum(s.requests, LeakBit(l)) }

  lemma {:induction false} OwedSum(rs: seq<Request>, l: Language)
    ensures Sum(R.AccountsOf(rs), A.OwesBit(l)) == Sum(rs, BorrowBit(l)) + Sum(rs, LossBit(l))
  {
    if rs != [] {
      OwedSum(rs[1..], l);
      assert R.AccountsOf(rs)[1..] == R.AccountsOf(rs[1..]);
    }
  }

  lemma {:induction false} TotalRun(s: State, steps: seq<Step>, l: Language)
    requires Inv(s) && Valid(s, steps) && l in s.lists
    ensures l in Run(s, steps).lists && A.Total(R.BooksOf(Run(s, steps)), l) == A.Total(R.BooksOf(s), l)
    decreases |steps|
  {
    if steps != [] {
      var b := R.BooksOf(s);
      R.StepRefines(s, steps[0]);
      if R.EventOf(s, steps[0]).Some? {
        var e := R.EventOf(s, steps[0]).value;
        assert L.Proper(b, b.accounts[e.r]);
        A.TotalIsConserved(b, e, l);
      }
      InvStep(s, steps[0]);
      TotalRun(Apply(s, steps[0]), steps[1..], l);
    }
  }

  lemma InitOwesNothing(s: State, l: Language)
    requires Init(s) && l in s.lists
    ensures Borrowed(s, l) == 0 && Losses(s, l) == 0
  {
    SumBound(s.requests, BorrowBit(l), 0);
    SumBound(s.requests, LossBit(l), 0);
  }

  /** In every reachable state: pooled, borrowed and lost containers make up the startup capacity. */
  lemma CapacityIsConserved(s: State, steps: seq<Step>, l: Language)
    requires Init(s) && Valid(s, steps) && l in s.lists
    ensures
      var t := Run(s, steps);
      l in t.lists && |t.lists[l]| + Borrowed(t, l) + Losses(t, l) == |s.lists[l]|
  {
    InitInv(s);
    TotalRun(s, steps, l);
    InitOwesNothing(s, l);
    OwedSum(s.requests, l);
    OwedSum(Run(s, steps).requests, l);
  }

  /** The containers of this service for `l` that exist in Docker. */
  function Live(s: State, l: Language): set<Id> {
    A.LiveOf(R.BooksOf(s), l)
  }

  function AllLive(s: State): set<Id> {
    set id | id in s.docker && id in s.issued
  }

  lemma LeakSum(s: State, l: Language)
    ensures Sum(R.BooksOf(s).accounts, A.LeakBit(l)) == Leaks(s, l)
  {
    SumSame(R.BooksOf(s).accounts, s.requests, A.LeakBit(l), LeakBit(l));
  }

  /** At no time has a language more existing containers than at startup, but for those Docker failed to remove. */
  lemma LiveContainersAreBounded(s: State, steps: seq<Step>, l: Language)
    requires Init(s) && Valid(s, steps)
    ensures |Live(Run(s, steps), l)| <= (if l in s.lists then |s.lists[l]| else 0) + Leaks(Run(s, steps), l)
  {
    var t := Run(s, steps);
    InitInv(s);
    InvRun(s, steps);
    KeysRun(s, steps);
    if l in s.lists {
      CapacityIsConserved(s, steps, l);
      OwedSum(t.requests, l);
      A.LiveIsBounded(R.BooksOf(t), l);
      LeakSum(t, l);
    } else {
      A.NoneElsewhere(R.BooksOf(t), l);
    }
  }

  function Capacity(s: State, l: Language): nat {
    if l in s.lists then |s.lists[l]| else 0
  }

  function TotalCapacity(s: State): nat {
    Capacity(s, CPP) + Capacity(s, GO) + Capacity(s, HASKELL) + Capacity(s, PYTHON) + Capacity(s, RUST)
  }

  lemma ActorLeaks(s: State, step: Step)
    requires Enabled(s, step) && step != RemoveJob(false)
    requires C.Actor(s, step) < |s.requests| == |C.Moved(s, step).requests|
    ensures C.Moved(s, step).requests[C.Actor(s, step)].leaked ==> s.requests[C.Actor(s, step)].leaked
  {
  }

  lemma LeakStep(s: State, step: Step)
    requires Enabled(s, step) && step != RemoveJob(false) && forall q | q in s.requests :: !q.leaked
    ensures forall q | q in Apply(s, step).requests :: !q.leaked
  {
    C.StepMoves(s, step);
    ActorLeaks(s, step);
    assert forall q | q in C.Moved(s, step).requests :: !q.leaked;
  }

  lemma {:induction false} NoLeaks(s: State, steps: seq<Step>)
    requires Valid(s, steps) && RemoveJob(false) !in steps && forall q | q in s.requests :: !q.leaked
    ensures forall q | q in Run(s, steps).requests :: !q.leaked
    decreases |steps|
  {
    if steps != [] {
      LeakStep(s, steps[0]);
      NoLeaks(Apply(s, steps[0]), steps[1..]);
    }
  }

  lemma LiveWithoutLeaks(s: State, steps: seq<Step>, l: Language)
    requires Init(s) && Valid(s, steps) && RemoveJob(false) !in steps
    ensures |Live(Run(s, steps), l)| <= Capacity(s, l)
  {
    LiveContainersAreBounded(s, steps, l);
    NoLeaks(s, steps);
    SumBound(Run(s, steps).requests, LeakBit(l), 0);
  }

  lemma FiveSets<T>(a: set<T>, b: set<T>, c: set<T>, d: set<T>, e: set<T>)
    ensures |a + b + c + d + e| <= |a| + |b| + |c| + |d| + |e|
  {
  }

  lemma LiveByLanguage(t: State)
    ensures |AllLive(t)| <= |Live(t, CPP)| + |Live(t, GO)| + |Live(t, HASKELL)| + |Live(t, PYTHON)| + |Live(t, RUST)|
  {
    var a, b, c, d, e := Live(t, CPP), Live(t, GO), Live(t, HASKELL), Live(t, PYTHON), Live(t, RUST);
    FiveSets(a, b, c, d, e);
    A.SubsetSize(AllLive(t), a + b + c + d + e);
  }

  /** If removals succeed, the service never has more containers than startup launched. */
  lemma LiveContainersNeverExceedCapacity(s: State, steps: seq<Step>)
    requires Init(s) && Valid(s, steps) && RemoveJob(false) !in steps
    ensures |AllLive(Run(s, steps))| <= TotalCapacity(s)
  {
    var t := Run(s, steps);
    LiveWithoutLeaks(s, steps, CPP);
    LiveWithoutLeaks(s, steps, GO);
    LiveWithoutLeaks(s, steps, HASKELL);
    LiveWithoutLeaks(s, steps, PYTHON);
    LiveWithoutLeaks(s, steps, RUST);
    LiveByLanguage(t);
  }

  /** The containers in Docker that this service did not launch. */
  function Foreign(s: State): map<Id, string> {
    s.docker - s.issued.Keys
  }

  lemma DockerMoves(s: State, step: Step)
    requires Enabled(s, step) && !step.RemoveJob? && !step.CreateJob?
    ensures Apply(s, step).docker == s.docker && Apply(s, step).issued == s.issued
  {
  }

  lemma ForeignStep(s: State, step: Step)
    requires Inv(s) && Enabled(s, step)
    ensures Foreign(Apply(s, step)) == Foreign(s)
  {
    if step.RemoveJob? {
      RequestsAreGrounded(s, s.jobs[0]);
    } else if !step.CreateJob? {
      DockerMoves(s, step);
    }
  }

  lemma {:induction false} ForeignRun(s: State, steps: seq<Step>)
    requires Inv(s) && Valid(s, steps)
    ensures Foreign(Run(s, steps)) == Foreign(s)
    decreases |steps|
  {
    if steps != [] {
      ForeignStep(s, steps[0]);
      InvStep(s, steps[0]);
      ForeignRun(Apply(s, steps[0]), steps[1..]);
    }
  }

  /** Over every run the service neither removes nor changes nor adds a container that is not its own. */
  lemma ForeignIsUntouched(s: State, steps: seq<Step>)
    requires Init(s) && Valid(s, steps)
    ensures Foreign(Run(s, steps)) == Foreign(s)
  {
    InitInv(s);
    ForeignRun(s, steps);
  }

  /** From the time Docker was asked for the image on, a request knows the image of its container. */
  predicate KnowsImage(s: State, q: Request) {
    && (q.lease.Some? && (q.phase.Running? || q.phase.RemoveQueued? || q.phase.Removed? || q.phase.CreateQueued?) ==>
          q.image == A.ImageOf(s.issued, q.lease.value.id))
    && (q.lease.Some? && C.Makes(q.phase) ==>
          A.ImageOf(s.issued, q.phase.made.id) == A.ImageOf(s.issued, q.lease.value.id))
  }

  predicate ImageInv(s: State) {
    forall r | 0 <= r < |s.requests| :: KnowsImage(s, s.requests[r])
  }

  /** The containers a request depends on are known, and a leased one exists with its image. */
  predicate Grounded(s: State, q: Request) {
    && (q.lease.Some? ==> q.lease.value.id in s.issued)
    && (q.lease.Some? && q.phase.Leased? ==>
          && q.lease.value.id in s.docker
          && s.docker[q.lease.value.id] == A.ImageOf(s.issued, q.lease.value.id))
    && (C.Makes(q.phase) ==> q.phase.made.id in s.issued)
  }

  lemma RequestsAreGrounded(s: State, r: nat)
    requires Inv(s) && r < |s.requests|
    ensures Grounded(s, s.requests[r])
  {
    assert L.Sound(R.BooksOf(s), L.Lease(r));
    assert L.Sound(R.BooksOf(s), L.New(r));
  }

  /** In every reachable state: a used container exists until it is removed, and afterwards exactly if its removal
      failed. */
  lemma UsedContainersExist(s: State, steps: seq<Step>, r: nat)
    requires Init(s) && Valid(s, steps) && r < |Run(s, steps).requests| && Run(s, steps).requests[r].lease.Some?
    ensures
      var t := Run(s, steps);
      var q := t.requests[r];
      q.lease.value.id in t.docker <==> q.phase.Leased? || q.phase.Running? || q.phase.RemoveQueued? || q.leaked
  {
    InitInv(s);
    InvRun(s, steps);
    assert C.Proper(Run(s, steps).lists, Run(s, steps).requests[r]);
    assert L.Sound(R.BooksOf(Run(s, steps)), L.Lease(r));
  }

  /** The image a request learns is that of its container, and none if the inspection fails; and it is from this image
      that the replacement is launched. */
  lemma InspectionDecides(s: State, steps: seq<Step>, r: nat, ok: bool)
    requires Init(s) && Valid(s, steps) && Enabled(Run(s, steps), Inspect(r, ok))
    ensures
      var t := Run(s, steps);
      var id := t.requests[r].lease.value.id;
      id in t.issued && Apply(t, Inspect(r, ok)).requests[r].image == if ok then t.issued[id].image else ""
  {
    InitInv(s);
    InvRun(s, steps);
    RequestsAreGrounded(Run(s, steps), r);
  }

  lemma ReplacementHasTheImage(s: State, id: Id)
    requires Enabled(s, CreateJob(id))
    ensures
      var q, t := s.requests[s.jobs[0]], Apply(s, CreateJob(id));
      && t.docker == s.docker[id := q.image]
      && t.issued == s.issued[id := Origin(q.lease.value.kind, q.image)]
      && t.requests[s.jobs[0]].phase == Created(Launcher(id, q.lease.value.kind))
  {
  }

  lemma ActorKnowsImage(s: State, step: Step)
    requires Enabled(s, step) && !(step.Inspect? && !step.ok)
    requires C.Proper(s.lists, s.requests[C.Actor(s, step)]) && Grounded(s, s.requests[C.Actor(s, step)])
    requires KnowsImage(s, s.requests[C.Actor(s, step)])
    ensures C.Actor(s, step) < |C.Moved(s, step).requests|
    ensures KnowsImage(C.Moved(s, step), C.Moved(s, step).requests[C.Actor(s, step)])
  {
  }

  lemma IssuedGrows(s: State, step: Step, id: Id)
    requires Enabled(s, step) && id in s.issued
    ensures A.ImageOf(C.Moved(s, step).issued, id) == A.ImageOf(s.issued, id)
  {
  }

  lemma ImageStep(s: State, step: Step)
    requires Inv(s) && ImageInv(s) && Enabled(s, step) && !(step.Inspect? && !step.ok)
    ensures ImageInv(Apply(s, step))
  {
    var r, s' := C.Actor(s, step), C.Moved(s, step);
    C.StepMoves(s, step);
    assert C.Proper(s.lists, s.requests[r]);
    RequestsAreGrounded(s, r);
    ActorKnowsImage(s, step);
    forall t | 0 <= t < |s'.requests| ensures KnowsImage(s', s'.requests[t]) {
      if t != r {
        assert s'.requests[t] == s.requests[t] && KnowsImage(s, s.requests[t]);
        RequestsAreGrounded(s, t);
        if s.requests[t].lease.Some? { IssuedGrows(s, step, s.requests[t].lease.value.id); }
        if C.Makes(s.requests[t].phase) { IssuedGrows(s, step, s.requests[t].phase.made.id); }
      }
    }
    if step.Notify? {
      forall t | 0 <= t < |s'.requests| ensures KnowsImage(WokenAll(s'), WokenAll(s').requests[t]) {
        assert KnowsImage(s', s'.requests[t]);
      }
    }
  }

  lemma ReturnsSameImage(s: State, step: Step)
    requires Inv(s) && ImageInv(s) && Enabled(s, step) && R.EventOf(s, step).Some?
    ensures
      var b, e := R.BooksOf(s), R.EventOf(s, step).value;
      e.Return? ==> e.r < |b.accounts| && A.SameImage(b.issued, b.accounts[e.r])
  {
    if step.Push? {
      assert KnowsImage(s, s.requests[s.jobs[0]]);
    }
  }

  lemma {:induction false} ImageTotalRun(s: State, steps: seq<Step>, l: Language, image: string)
    requires Inv(s) && ImageInv(s) && Valid(s, steps) && l in s.lists
    requires forall step | step in steps :: step.Inspect? ==> step.ok
    ensures l in Run(s, steps).lists
    ensures A.ImageTotal(R.BooksOf(Run(s, steps)), l, image) == A.ImageTotal(R.BooksOf(s), l, image)
    decreases |steps|
  {
    if steps != [] {
      var step := steps[0];
      R.StepRefines(s, step);
      if R.EventOf(s, step).Some? {
        ReturnsSameImage(s, step);
        A.ImagesAreConserved(R.BooksOf(s), R.EventOf(s, step).value, l, image);
      }
      InvStep(s, step);
      ImageStep(s, step);
      ImageTotalRun(Apply(s, step), steps[1..], l, image);
    }
  }

  lemma NothingOwed(s: State, l: Language, image: string)
    requires Init(s)
    ensures Sum(R.BooksOf(s).accounts, A.OwesImageBit(s.issued, l, image)) == 0
  {
    var b := R.BooksOf(s);
    forall a | a in b.accounts ensures A.OwesImageBit(s.issued, l, image)(a) == 0 {
      var r :| 0 <= r < |b.accounts| && b.accounts[r] == a;
      assert s.requests[r] in s.requests;
    }
    SumBound(b.accounts, A.OwesImageBit(s.issued, l, image), 0);
  }

  /** As long as Docker answers which image a container has, each language keeps its mix of images. */
  lemma ImagesAreKept(s: State, steps: seq<Step>, l: Language, image: string)
    requires Init(s) && Valid(s, steps) && l in s.lists
    requires forall step | step in steps :: step.Inspect? ==> step.ok
    ensures l in Run(s, steps).lists
    ensures A.ImageTotal(R.BooksOf(Run(s, steps)), l, image) == Sum(s.lists[l], A.ListedBit(s.issued, image))
  {
    InitInv(s);
    forall r | 0 <= r < |s.requests| ensures KnowsImage(s, s.requests[r]) {
      assert s.requests[r] in s.requests;
    }
    ImageTotalRun(s, steps, l, image);
    NothingOwed(s, l, image);
  }

  /** Every container under a language was launched for that language. */
  lemma TypesAgree(s: State, steps: seq<Step>, l: Language, i: nat)
    requires Init(s) && Valid(s, steps) && l in Run(s, steps).lists && i < |Run(s, steps).lists[l]|
    ensures
      var x := Run(s, steps).lists[l][i];
      && x.kind == l
      && x.id in Run(s, steps).issued && Run(s, steps).issued[x.id].kind == l
      && x.id in Run(s, steps).docker
  {
    InitInv(s);
    InvRun(s, steps);
    assert L.Sound(R.BooksOf(Run(s, steps)), L.InList(l, i));
  }
}
