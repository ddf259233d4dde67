/**
 The bookkeeping behind the pool, without threads: which container is in a list, leased, or on
 its way back. Module Refinement shows that every step of the protocol is one of these events or
 leaves the books as they are.
 */
module Ledger {
  import opened Wrappers
  import opened Pool

  datatype Stage =
    | Waiting               // no container yet
    | Holding               // has a container that was not yet removed
    | Restoring             // the container was given to Docker for removal
    | Made(made: Launcher)  // a replacement exists and is in no list yet
    | Returned              // the replacement is in the list
    | Gone                  // there will be no replacement

  datatype Account = Account(lang: Language, stage: Stage, lease: Option<Launcher>, image: string, leaked: bool)

  datatype Books = Books(
    accounts: seq<Account>,
    lists: Lists,
    docker: map<Id, string>,   // the containers that exist, with their images
    issued: map<Id, Origin>)   // all containers this service ever launched

  datatype Event =
    | Take(r: nat)
    | Note(r: nat, image: string)
    | Remove(r: nat, ok: bool)
    | Launch(r: nat, id: Id)
    | Return(r: nat)
    | Lose(r: nat)

  predicate Fresh(b: Books, id: Id) {
    id != "" && id !in b.docker && id !in b.issued
  }

  predicate Possible(b: Books, e: Event) {
    e.r < |b.accounts| &&
    var a := b.accounts[e.r];
    match e
    case Take(_) => a.stage == Waiting && a.lang in b.lists && b.lists[a.lang] != []
    case Note(_, _) => a.stage == Holding
    case Remove(_, _) => a.stage == Holding && a.lease.Some?
    case Launch(_, id) => a.stage == Restoring && a.lease.Some? && Fresh(b, id)
    case Return(_) => a.stage.Made? && a.stage.made.kind in b.lists
    case Lose(_) => a.stage == Restoring
  }

  function Set(b: Books, r: nat, a: Account): Books
    requires r < |b.accounts|
  {
    b.(accounts := b.accounts[r := a])
  }

  function Happen(b: Books, e: Event): Books
    requires Possible(b, e)
  {
    var r, a := e.r, b.accounts[e.r];
    match e
    case Take(_) =>
      Set(b, r, a.(stage := Holding, lease := Some(Back(b.lists, a.lang)))).(lists := Popped(b.lists, a.lang))
    case Note(_, image) => Set(b, r, a.(image := image))
    case Remove(_, ok) =>
      Set(b, r, a.(stage := Restoring, leaked := !ok))
        .(docker := if ok then b.docker - {a.lease.value.id} else b.docker)
    case Launch(_, id) =>
      var kind := a.lease.value.kind;
      Set(b, r, a.(stage := Made(Launcher(id, kind)))).(docker := b.docker[id := a.image],
                                                        issued := b.issued[id := Origin(kind, a.image)])
    case Return(_) => Set(b, r, a.(stage := Returned)).(lists := PushedBack(b.lists, a.stage.made))
    case Lose(_) => Set(b, r, a.(stage := Gone))
  }

  /** One account on its own. */
  predicate Proper(b: Books, a: Account) {
    && (a.lease.Some? <==> !a.stage.Waiting?)
    && (a.lease.Some? ==> a.lang in b.lists && a.lease.value.kind == a.lang)
    && (a.stage.Made? ==> a.stage.made.kind == a.lang)
    && (a.leaked ==> !a.stage.Waiting? && !a.stage.Holding?)
  }

  predicate ProperInv(b: Books) {
    && (forall r | 0 <= r < |b.accounts| :: Proper(b, b.accounts[r]))
    && (forall l, i | l in b.lists && 0 <= i < |b.lists[l]| :: b.lists[l][i].kind == l)
  }

  /** The places a container can have: in a list, as somebody's lease, also after its removal, or on its way to
      a list. */
  datatype Place = InList(l: Language, i: nat) | Lease(r: nat) | New(r: nat)

  function IdAt(b: Books, p: Place): Option<Id> {
    match p
    case InList(l, i) => if l in b.lists && i < |b.lists[l]| then Some(b.lists[l][i].id) else None
    case Lease(r) => if r < |b.accounts| && b.accounts[r].lease.Some? then Some(b.accounts[r].lease.value.id) else None
    case New(r) => if r < |b.accounts| && b.accounts[r].stage.Made? then Some(b.accounts[r].stage.made.id) else None
  }

  /** The language of the container at `p`. */
  function KindAt(b: Books, p: Place): Language
    requires IdAt(b, p).Some?
  {
    if p.InList? then p.l else b.accounts[p.r].lang
  }

  /** The container at `p` exists in Docker: all do, but for the leases that were removed. */
  predicate ExistsAt(b: Books, p: Place)
    requires IdAt(b, p).Some?
  {
    p.Lease? ==> b.accounts[p.r].stage.Holding? || b.accounts[p.r].leaked
  }

  predicate Sound(b: Books, p: Place) {
    IdAt(b, p).Some? ==>
      var id := IdAt(b, p).value;
      && id in b.issued && b.issued[id].kind == KindAt(b, p)
      && (id in b.docker <==> ExistsAt(b, p))
      && (id in b.docker ==> b.docker[id] == b.issued[id].image)
  }

  ghost predicate SoundInv(b: Books) {
    forall p :: Sound(b, p)
  }

  /** No container is at two places. */
  ghost predicate UniqueInv(b: Books) {
    forall p, q :: IdAt(b, p).Some? && IdAt(b, p) == IdAt(b, q) ==> p == q
  }

  /** Every container ever launched has its place. */
  ghost predicate TracedInv(b: Books) {
    forall id | id in b.issued :: exists p :: IdAt(b, p) == Some(id)
  }

  ghost predicate BooksInv(b: Books) {
    ProperInv(b) && SoundInv(b) && UniqueInv(b) && TracedInv(b)
  }

  /** Where the container at place `p` was before the event. */
  function From(b: Books, e: Event, p: Place): Place
    requires Possible(b, e)
  {
    match e
    case Take(r) => if p == Lease(r) then InList(b.accounts[r].lang, |b.lists[b.accounts[r].lang]| - 1) else p
    case Return(r) =>
      var l := b.accounts[r].stage.made.kind;
      if p == InList(l, |b.lists[l]|) then New(r) else p
    case _ => p
  }

  /** Where the container at place `p` is after the event. */
  function To(b: Books, e: Event, p: Place): Place
    requires Possible(b, e)
  {
    match e
    case Take(r) => if p == InList(b.accounts[r].lang, |b.lists[b.accounts[r].lang]| - 1) then Lease(r) else p
    case Return(r) =>
      var l := b.accounts[r].stage.made.kind;
      if p == New(r) then InList(l, |b.lists[l]|) else p
    case _ => p
  }

  /** Events move containers, and only a launch adds one. */
  lemma IdCameFrom(b: Books, e: Event, p: Place)
    requires Possible(b, e) && Proper(b, b.accounts[e.r])
    requires IdAt(Happen(b, e), p).Some? && !(e.Launch? && p == New(e.r))
    ensures IdAt(Happen(b, e), p) == IdAt(b, From(b, e, p)) && To(b, e, From(b, e, p)) == p
  {
  }

  lemma IdGoesTo(b: Books, e: Event, p: Place)
    requires Possible(b, e) && Proper(b, b.accounts[e.r])
    requires IdAt(b, p).Some?
    ensures IdAt(Happen(b, e), To(b, e, p)) == IdAt(b, p)
  {
  }

  lemma UniqueStep(b: Books, e: Event)
    requires BooksInv(b) && Possible(b, e)
    ensures UniqueInv(Happen(b, e))
  {
    var b' := Happen(b, e);
    assert Proper(b, b.accounts[e.r]);
    forall p, q | IdAt(b', p).Some? && IdAt(b', p) == IdAt(b', q) ensures p == q {
      var isNew := p' => e.Launch? && p' == New(e.r);
      if !isNew(p) { IdCameFrom(b, e, p); assert Sound(b, From(b, e, p)); }
      if !isNew(q) { IdCameFrom(b, e, q); assert Sound(b, From(b, e, q)); }
    }
  }

  lemma TracedStep(b: Books, e: Event)
    requires BooksInv(b) && Possible(b, e)
    ensures TracedInv(Happen(b, e))
  {
    var b' := Happen(b, e);
    assert Proper(b, b.accounts[e.r]);
    forall id | id in b'.issued ensures exists p :: IdAt(b', p) == Some(id) {
      if id in b.issued {
        var p :| IdAt(b, p) == Some(id);
        IdGoesTo(b, e, p);
      } else {
        assert IdAt(b', New(e.r)) == Some(id);
      }
    }
  }

  lemma ProperStep(b: Books, e: Event)
    requires BooksInv(b) && Possible(b, e)
    ensures ProperInv(Happen(b, e))
  {
  }

  lemma SoundStep(b: Books, e: Event)
    requires BooksInv(b) && Possible(b, e)
    ensures SoundInv(Happen(b, e))
  {
    var b' := Happen(b, e);
    assert Proper(b, b.accounts[e.r]);
    forall p ensures Sound(b', p) {
      if IdAt(b', p).Some? && !(e.Launch? && p == New(e.r)) {
        IdCameFrom(b, e, p);
        assert Sound(b, From(b, e, p));
        assert IdAt(b, From(b, e, p)) == IdAt(b, Lease(e.r)) ==> From(b, e, p) == Lease(e.r);
      }
    }
  }
}
