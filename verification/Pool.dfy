/** The lists of pooled containers, one per language. */
module Pool {
  type Id = string

  datatype Language = CPP | GO | HASKELL | PYTHON | RUST

  /** `BaseCodeLauncher`: the container and the language it was launched for. */
  datatype Launcher = Launcher(id: Id, kind: Language)

  /** What a container was launched for. */
  datatype Origin = Origin(kind: Language, image: string)

  type Lists = map<Language, seq<Launcher>>

  function Back(lists: Lists, l: Language): Launcher
    requires l in lists && lists[l] != []
  {
    lists[l][|lists[l]| - 1]
  }

  /** The lists once `extract` has taken the last element. */
  function Popped(lists: Lists, l: Language): Lists
    requires l in lists && lists[l] != []
  {
    lists[l := lists[l][..|lists[l]| - 1]]
  }

  /** The lists once `addValue` has appended `x` to the list of its language. */
  function PushedBack(lists: Lists, x: Launcher): Lists
    requires x.kind in lists
  {
    lists[x.kind := lists[x.kind] + [x]]
  }

  function Listed(lists: Lists, l: Language): seq<Launcher> {
    if l in lists then lists[l] else []
  }

  /** The lists once `addValues` has appended `xs` to the list of `l`; without values no list comes into being. */
  function AddedAll(lists: Lists, l: Language, xs: seq<Launcher>): Lists {
    if xs == [] then lists else lists[l := Listed(lists, l) + xs]
  }

  lemma AddedOneMore(lists: Lists, l: Language, xs: seq<Launcher>, x: Launcher)
    ensures AddedAll(AddedAll(lists, l, xs), l, [x]) == AddedAll(lists, l, xs + [x])
  {
    assert Listed(AddedAll(lists, l, xs), l) == Listed(lists, l) + xs;
    assert Listed(lists, l) + xs + [x] == Listed(lists, l) + (xs + [x]);
  }

  /** A list of the pool has a container at position `i`. */
  predicate Position(lists: Lists, l: Language, i: nat) {
    l in lists && i < |lists[l]|
  }

  /** The container at a position is of the list's language, exists, and was launched by the service from its image. */
  predicate Genuine(lists: Lists, docker: map<Id, string>, issued: map<Id, Origin>, l: Language, i: nat)
    requires Position(lists, l, i)
  {
    var x := lists[l][i];
    x.kind == l && x.id in docker && x.id in issued && issued[x.id] == Origin(l, docker[x.id])
  }

  ghost predicate Placed(lists: Lists, id: Id) {
    exists l, i: nat :: Position(lists, l, i) && lists[l][i].id == id
  }

  /** A pool in which every list has a container, every container is genuine and at one position only, and none is
      missing. */
  ghost predicate Ready(lists: Lists, docker: map<Id, string>, issued: map<Id, Origin>) {
    && (forall l | l in lists :: lists[l] != [])
    && (forall l, i: nat {:trigger Genuine(lists, docker, issued, l, i)} | Position(lists, l, i) ::
          Genuine(lists, docker, issued, l, i))
    && (forall l, i: nat, l', i': nat | Position(lists, l, i) && Position(lists, l', i') ::
          lists[l][i].id == lists[l'][i'].id ==> l == l' && i == i')
    && (forall id {:trigger Placed(lists, id)} | id in issued :: Placed(lists, id))
  }

  lemma PositionsGrow(lists: Lists, x: Launcher, l: Language, i: nat)
    ensures
      var lists', last := AddedAll(lists, x.kind, [x]), |Listed(lists, x.kind)|;
      && (Position(lists', l, i) <==> Position(lists, l, i) || (l == x.kind && i == last))
      && (Position(lists', l, i) ==> lists'[l][i] == if l == x.kind && i == last then x else lists[l][i])
      && !Position(lists, x.kind, last)
  {
  }

  /** A ready pool stays ready with one more, freshly launched, container. */
  lemma ReadyGrows(lists: Lists, docker: map<Id, string>, issued: map<Id, Origin>, x: Launcher, image: string)
    requires Ready(lists, docker, issued) && x.id !in docker && x.id !in issued
    ensures Ready(AddedAll(lists, x.kind, [x]), docker[x.id := image], issued[x.id := Origin(x.kind, image)])
  {
    var lists', docker' := AddedAll(lists, x.kind, [x]), docker[x.id := image];
    var issued' := issued[x.id := Origin(x.kind, image)];
    forall l, i: nat | Position(lists', l, i) ensures Genuine(lists', docker', issued', l, i) {
      PositionsGrow(lists, x, l, i);
      assert Position(lists, l, i) ==> Genuine(lists, docker, issued, l, i);
    }
    forall l, i: nat, l', i': nat | Position(lists', l, i) && Position(lists', l', i')
      ensures lists'[l][i].id == lists'[l'][i'].id ==> l == l' && i == i'
    {
      PositionsGrow(lists, x, l, i);
      PositionsGrow(lists, x, l', i');
      assert Position(lists, l, i) ==> Genuine(lists, docker, issued, l, i);
      assert Position(lists, l', i') ==> Genuine(lists, docker, issued, l', i');
    }
    forall id | id in issued' ensures Placed(lists', id) {
      if id == x.id {
        PositionsGrow(lists, x, x.kind, |Listed(lists, x.kind)|);
      } else {
        assert Placed(lists, id);
        var l, i: nat :| Position(lists, l, i) && lists[l][i].id == id;
        PositionsGrow(lists, x, l, i);
      }
    }
  }

  lemma {:induction false} LongerThanAll(ids: set<Id>) returns (n: nat)
    ensures forall id | id in ids :: |id| < n
  {
    if ids == {} {
      n := 0;
    } else {
      var id :| id in ids;
      n := LongerThanAll(ids - {id});
      n := if n <= |id| then |id| + 1 else n;
    }
  }

  /** Docker never runs out of ids. */
  lemma UnusedId(ids: set<Id>) returns (id: Id)
    ensures id != "" && id !in ids
  {
    var n := LongerThanAll(ids);
    id := seq(n + 1, _ => 'x');
  }
}
