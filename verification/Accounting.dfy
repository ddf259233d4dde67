/** What the events of the books conserve: the capacity of each language, and its images. */
module Accounting {
  import opened Wrappers
  import opened Pool
  import opened Ledger
  import opened Sums

  /** A container was taken and nothing was put back for it. */
  predicate Owes(a: Account, l: Language) {
    a.lang == l && !a.stage.Waiting? && !a.stage.Returned?
  }

  function OwesBit(l: Language): Account -> nat {
    (a: Account) => Bit(Owes(a, l))
  }

  /** Containers in the list of `l`, and those that are owed to it. */
  function Total(b: Books, l: Language): nat
    requires l in b.lists
  {
    |b.lists[l]| + Sum(b.accounts, OwesBit(l))
  }

  /** No event changes the total of any language. */
  lemma TotalIsConserved(b: Books, e: Event, l: Language)
    requires Possible(b, e) && Proper(b, b.accounts[e.r]) && l in b.lists
    ensures l in Happen(b, e).lists && Total(Happen(b, e), l) == Total(b, l)
  {
    SumUpdate(b.accounts, e.r, Happen(b, e).accounts[e.r], OwesBit(l));
  }

  function ImageOf(issued: map<Id, Origin>, id: Id): string {
    if id in issued then issued[id].image else ""
  }

  function ListedBit(issued: map<Id, Origin>, image: string): Launcher -> nat {
    (x: Launcher) => Bit(ImageOf(issued, x.id) == image)
  }

  function OwesImageBit(issued: map<Id, Origin>, l: Language, image: string): Account -> nat {
    (a: Account) => Bit(Owes(a, l) && a.lease.Some? && ImageOf(issued, a.lease.value.id) == image)
  }

  /** How many containers of this image the list of `l` has or is owed. */
  function ImageTotal(b: Books, l: Language, image: string): nat
    requires l in b.lists
  {
    Sum(b.lists[l], ListedBit(b.issued, image)) + Sum(b.accounts, OwesImageBit(b.issued, l, image))
  }

  /** Learning of one more container changes nothing for those already known. */
  lemma NewsChangesNothing(
    xs: seq<Launcher>, accounts: seq<Account>, issued: map<Id, Origin>, id: Id, o: Origin, l: Language, v: string)
    requires forall x | x in xs :: x.id in issued
    requires forall a | a in accounts && a.lease.Some? :: a.lease.value.id in issued
    requires id !in issued
    ensures Sum(xs, ListedBit(issued[id := o], v)) == Sum(xs, ListedBit(issued, v))
    ensures Sum(accounts, OwesImageBit(issued[id := o], l, v)) == Sum(accounts, OwesImageBit(issued, l, v))
  {
    SumSame(xs, xs, ListedBit(issued[id := o], v), ListedBit(issued, v));
    SumSame(accounts, accounts, OwesImageBit(issued[id := o], l, v), OwesImageBit(issued, l, v));
  }

  lemma ImageLaunch(b: Books, e: Event, l: Language, v: string)
    requires SoundInv(b) && Possible(b, e) && e.Launch? && l in b.lists
    ensures ImageTotal(Happen(b, e), l, v) == ImageTotal(b, l, v)
  {
    forall x | x in b.lists[l] ensures x.id in b.issued {
      var i :| 0 <= i < |b.lists[l]| && b.lists[l][i] == x;
      assert Sound(b, InList(l, i));
    }
    forall a | a in b.accounts && a.lease.Some? ensures a.lease.value.id in b.issued {
      var r :| 0 <= r < |b.accounts| && b.accounts[r] == a;
      assert Sound(b, Lease(r));
    }
    var b' := Happen(b, e);
    NewsChangesNothing(b.lists[l], b.accounts, b.issued, e.id, b'.issued[e.id], l, v);
    SumUpdate(b.accounts, e.r, b'.accounts[e.r], OwesImageBit(b'.issued, l, v));
  }

  lemma ImageTake(b: Books, e: Event, l: Language, v: string)
    requires Possible(b, e) && e.Take? && l in b.lists
    ensures ImageTotal(Happen(b, e), l, v) == ImageTotal(b, l, v)
  {
    var b', a := Happen(b, e), b.accounts[e.r];
    SumUpdate(b.accounts, e.r, b'.accounts[e.r], OwesImageBit(b.issued, l, v));
    var xs, x := b'.lists[a.lang], Back(b.lists, a.lang);
    assert b.lists[a.lang] == xs + [x];
    SumLast(xs, x, ListedBit(b.issued, v));
  }

  lemma ImageReturn(b: Books, e: Event, l: Language, v: string)
    requires Possible(b, e) && e.Return? && l in b.lists && Proper(b, b.accounts[e.r])
    requires ImageOf(b.issued, b.accounts[e.r].stage.made.id) == ImageOf(b.issued, b.accounts[e.r].lease.value.id)
    ensures ImageTotal(Happen(b, e), l, v) == ImageTotal(b, l, v)
  {
    var b', a := Happen(b, e), b.accounts[e.r];
    SumUpdate(b.accounts, e.r, b'.accounts[e.r], OwesImageBit(b.issued, l, v));
    SumLast(b.lists[a.lang], a.stage.made, ListedBit(b.issued, v));
  }

  lemma ImageQuiet(b: Books, e: Event, l: Language, v: string)
    requires Possible(b, e) && (e.Note? || e.Remove? || e.Lose?) && l in b.lists
    ensures ImageTotal(Happen(b, e), l, v) == ImageTotal(b, l, v)
  {
    var a, a', bit := b.accounts[e.r], Happen(b, e).accounts[e.r], OwesImageBit(b.issued, l, v);
    SumUpdate(b.accounts, e.r, a', bit);
    assert bit(a') == bit(a);
  }

  /** No event changes an image's share, as long as each container is replaced by one of the same image. */
  lemma ImagesAreConserved(b: Books, e: Event, l: Language, v: string)
    requires BooksInv(b) && Possible(b, e) && l in b.lists
    requires e.Return? ==> SameImage(b.issued, b.accounts[e.r])
    ensures l in Happen(b, e).lists && ImageTotal(Happen(b, e), l, v) == ImageTotal(b, l, v)
  {
    assert Proper(b, b.accounts[e.r]);
    match e
    case Launch(_, _) => ImageLaunch(b, e, l, v);
    case Take(_) => ImageTake(b, e, l, v);
    case Return(_) => ImageReturn(b, e, l, v);
    case _ => ImageQuiet(b, e, l, v);
  }

  /** The replacement was launched from the image of the container it replaces. */
  predicate SameImage(issued: map<Id, Origin>, a: Account) {
    a.stage.Made? && a.lease.Some? ==> ImageOf(issued, a.stage.made.id) == ImageOf(issued, a.lease.value.id)
  }

  /** The containers of this service for `l` that exist in Docker. */
  function LiveOf(b: Books, l: Language): set<Id> {
    set id | id in b.docker && id in b.issued && b.issued[id].kind == l
  }

  function LeakBit(l: Language): Account -> nat {
    (a: Account) => Bit(a.lang == l && a.leaked)
  }

  function LiveBit(l: Language): Account -> nat {
    (a: Account) => Bit(Owes(a, l)) + Bit(a.lang == l && a.leaked)
  }

  /** The existing containers an account stands for. */
  function IdsOf(a: Account, l: Language): set<Id> {
    var held := if a.lang == l && a.lease.Some? && (a.stage.Holding? || a.leaked) then {a.lease.value.id} else {};
    var made := if a.lang == l && a.stage.Made? then {a.stage.made.id} else {};
    held + made
  }

  function IdsOfAll(accounts: seq<Account>, l: Language): set<Id> {
    if accounts == [] then {} else IdsOf(accounts[0], l) + IdsOfAll(accounts[1..], l)
  }

  function IdsIn(xs: seq<Launcher>): set<Id> {
    if xs == [] then {} else {xs[0].id} + IdsIn(xs[1..])
  }

  lemma UnionSize<T>(x: set<T>, y: set<T>)
    ensures |x + y| <= |x| + |y|
  {
    assert |x + y| == |x| + |y| - |x * y|;
  }

  lemma SubsetSize<T>(x: set<T>, y: set<T>)
    requires x <= y
    ensures |x| <= |y|
  {
    assert y == x + (y - x);
  }

  lemma {:induction false} IdsInMeaning(xs: seq<Launcher>)
    ensures |IdsIn(xs)| <= |xs|
    ensures forall i | 0 <= i < |xs| :: xs[i].id in IdsIn(xs)
  {
    if xs != [] {
      IdsInMeaning(xs[1..]);
      UnionSize({xs[0].id}, IdsIn(xs[1..]));
      assert forall i | 0 < i < |xs| :: xs[i] == xs[1..][i - 1];
    }
  }

  lemma IdsOfSize(a: Account, l: Language)
    requires a.leaked ==> !a.stage.Holding?
    ensures |IdsOf(a, l)| <= LiveBit(l)(a)
  {
    var held := if a.lang == l && a.lease.Some? && (a.stage.Holding? || a.leaked) then {a.lease.value.id} else {};
    var made := if a.lang == l && a.stage.Made? then {a.stage.made.id} else {};
    UnionSize(held, made);
  }

  lemma {:induction false} IdsOfAllMeaning(accounts: seq<Account>, l: Language)
    requires forall a | a in accounts :: a.leaked ==> !a.stage.Holding?
    ensures |IdsOfAll(accounts, l)| <= Sum(accounts, LiveBit(l))
    ensures forall r | 0 <= r < |accounts| :: IdsOf(accounts[r], l) <= IdsOfAll(accounts, l)
  {
    if accounts != [] {
      IdsOfAllMeaning(accounts[1..], l);
      var a := accounts[0];
      UnionSize(IdsOf(a, l), IdsOfAll(accounts[1..], l));
      IdsOfSize(a, l);
      assert forall r | 0 < r < |accounts| :: accounts[r] == accounts[1..][r - 1];
    }
  }

  lemma {:induction false} SumSplits(accounts: seq<Account>, l: Language)
    ensures Sum(accounts, LiveBit(l)) == Sum(accounts, OwesBit(l)) + Sum(accounts, LeakBit(l))
  {
    if accounts != [] {
      SumSplits(accounts[1..], l);
    }
  }

  /** A language has no more existing containers than its total, but for those Docker failed to remove. */
  lemma LiveIsBounded(b: Books, l: Language)
    requires BooksInv(b) && l in b.lists
    ensures |LiveOf(b, l)| <= Total(b, l) + Sum(b.accounts, LeakBit(l))
  {
    var x, y := IdsIn(b.lists[l]), IdsOfAll(b.accounts, l);
    IdsInMeaning(b.lists[l]);
    IdsOfAllMeaning(b.accounts, l);
    SumSplits(b.accounts, l);
    forall id | id in LiveOf(b, l) ensures id in x + y {
      var p :| IdAt(b, p) == Some(id);
      assert Sound(b, p);
      if p.InList? {
        assert p.l == l && b.lists[l][p.i].id == id;
      } else {
        assert IdsOf(b.accounts[p.r], l) <= y;
      }
    }
    UnionSize(x, y);
    SubsetSize(LiveOf(b, l), x + y);
  }

  /** Every container was launched for a language of the pool. */
  lemma LaunchedForThePool(b: Books, id: Id)
    requires BooksInv(b) && id in b.issued
    ensures b.issued[id].kind in b.lists
  {
    var p :| IdAt(b, p) == Some(id);
    assert Sound(b, p);
    if !p.InList? {
      assert Proper(b, b.accounts[p.r]);
    }
  }

  /** A language that is not in the pool has no container. */
  lemma NoneElsewhere(b: Books, l: Language)
    requires BooksInv(b) && l !in b.lists
    ensures LiveOf(b, l) == {}
  {
    forall id | id in b.issued ensures b.issued[id].kind in b.lists {
      LaunchedForThePool(b, id);
    }
  }
}
