/** The tables of the configuration, and what startup makes of them: containers to clear away and lists to fill. */
module Tables {
  import opened Text
  import opened Pool

  const SENJUN_PATTERN := "senjun"

  datatype ContainerInfo = ContainerInfo(imageName: string, launched: nat)

  type ContainerTypes = map<Language, ContainerInfo>

  datatype Config = Config(courses: ContainerTypes, playgrounds: ContainerTypes, practices: ContainerTypes)

  function LaunchedFor(types: ContainerTypes, l: Language): nat {
    if l in types then types[l].launched else 0
  }

  function ImageOf(containers: map<Id, string>, id: Id): string {
    if id in containers then containers[id] else ""
  }

  /** What the three tables of the configuration ask for. */
  function AskedFor(config: Config, l: Language): nat {
    LaunchedFor(config.courses, l) + LaunchedFor(config.playgrounds, l) + LaunchedFor(config.practices, l)
  }

  /** What a table says for a language and an image. */
  function Asked(types: ContainerTypes, o: Origin): nat {
    if Names(types, o) then types[o.kind].launched else 0
  }

  /** The launches that failed, by table and language. */
  datatype Failures =
    Failures(courses: multiset<Language>, playgrounds: multiset<Language>, practices: multiset<Language>)

  function FailedFor(f: Failures, l: Language): nat {
    f.courses[l] + f.playgrounds[l] + f.practices[l]
  }

  function FailedIn(types: ContainerTypes, failed: multiset<Language>, o: Origin): nat {
    if Names(types, o) then failed[o.kind] else 0
  }

  function AskedOf(config: Config, o: Origin): nat {
    Asked(config.courses, o) + Asked(config.playgrounds, o) + Asked(config.practices, o)
  }

  function FailedOf(config: Config, f: Failures, o: Origin): nat {
    FailedIn(config.courses, f.courses, o) + FailedIn(config.playgrounds, f.playgrounds, o)
    + FailedIn(config.practices, f.practices, o)
  }

  /** How many of the containers were launched for this language from this image. */
  function Count(xs: seq<Launcher>, issued: map<Id, Origin>, o: Origin): nat {
    if xs == [] then 0
    else
      var x := xs[|xs| - 1];
      Count(xs[..|xs| - 1], issued, o) + if x.id in issued && issued[x.id] == o then 1 else 0
  }

  predicate NewAre(issued: map<Id, Origin>, issued': map<Id, Origin>, o: Origin) {
    forall id | id in issued' && id !in issued :: issued'[id] == o
  }

  /** All containers launched since, these among them, were launched for this language from this image. */
  predicate AllFrom(issued: map<Id, Origin>, issued': map<Id, Origin>, xs: seq<Launcher>, o: Origin) {
    && Extends(issued, issued')
    && NewAre(issued, issued', o)
    && forall i | 0 <= i < |xs| :: xs[i].id in issued' && issued'[xs[i].id] == o
  }

  lemma AllFromStep(issued: map<Id, Origin>, issued': map<Id, Origin>, xs: seq<Launcher>, o: Origin, x: Launcher)
    requires AllFrom(issued, issued', xs, o) && x.id !in issued'
    ensures AllFrom(issued, issued'[x.id := o], xs + [x], o)
  {
  }

  lemma FromStep(
    issued: map<Id, Origin>, issued': map<Id, Origin>, issued'': map<Id, Origin>, types: ContainerTypes, l: Language)
    requires LaunchedFrom(issued, issued', types) && Extends(issued', issued'') && l in types
    requires NewAre(issued', issued'', Origin(l, types[l].imageName))
    ensures LaunchedFrom(issued, issued'', types)
  {
  }

  predicate Extends(issued: map<Id, Origin>, issued': map<Id, Origin>) {
    forall id | id in issued :: id in issued' && issued'[id] == issued[id]
  }

  /** A list has grown at its end by containers of the image its table names, as many as that asks for less the
      failures. */
  predicate GrownBy(
    xs: seq<Launcher>, ys: seq<Launcher>, issued: map<Id, Origin>, l: Language, types: ContainerTypes, failed: nat)
  {
    && xs <= ys
    && |ys| + failed == |xs| + LaunchedFor(types, l)
    && forall i | |xs| <= i < |ys| ::
         l in types && ys[i].id in issued && issued[ys[i].id] == Origin(l, types[l].imageName)
  }

  lemma {:induction false} CountGrown(
    xs: seq<Launcher>, ys: seq<Launcher>, issued: map<Id, Origin>, types: ContainerTypes, failed: nat, o: Origin)
    requires GrownBy(xs, ys, issued, o.kind, types, failed)
    ensures Count(ys, issued, o) == Count(xs, issued, o) + if Names(types, o) then |ys| - |xs| else 0
    decreases |ys|
  {
    if |xs| < |ys| {
      var ys' := ys[..|ys| - 1];
      assert xs <= ys' && GrownBy(xs, ys', issued, o.kind, types, failed + 1);
      CountGrown(xs, ys', issued, types, failed + 1, o);
    } else {
      assert xs == ys;
    }
  }

  lemma {:induction false} CountExtends(xs: seq<Launcher>, issued: map<Id, Origin>, issued': map<Id, Origin>, o: Origin)
    requires Extends(issued, issued') && forall x | x in xs :: x.id in issued
    ensures Count(xs, issued', o) == Count(xs, issued, o)
  {
    if xs != [] {
      assert xs[|xs| - 1] in xs;
      CountExtends(xs[..|xs| - 1], issued, issued', o);
    }
  }

  /** The images that startup takes for the service's own. */
  function IsSenjun(): string -> bool {
    (image: string) => FindFrom(image, SENJUN_PATTERN, 0).Some?
  }

  /** The containers an earlier run of the service may have left. */
  function Leftovers(containers: map<Id, string>): set<Id> {
    set id | id in containers && IsSenjun()(containers[id])
  }

  /** They are those whose image has the pattern in it, wherever. */
  lemma LeftoversMean(containers: map<Id, string>, id: Id)
    ensures id in Leftovers(containers) <==> id in containers && Contains(containers[id], "senjun")
  {
  }

  lemma EmptyIsReady(docker: map<Id, string>)
    ensures Ready(map[], docker, map[])
  {
  }

  /** The ids in a list whose image is a hit. */
  function Matching(listed: seq<(Id, string)>, hit: string -> bool): set<Id> {
    if listed == [] then {}
    else
      var c, others := listed[|listed| - 1], Matching(listed[..|listed| - 1], hit);
      if hit(c.1) then others + {c.0} else others
  }

  lemma {:induction false} MatchingMeans(listed: seq<(Id, string)>, hit: string -> bool, id: Id)
    ensures id in Matching(listed, hit) <==> exists i :: 0 <= i < |listed| && listed[i].0 == id && hit(listed[i].1)
  {
    if listed != [] {
      MatchingMeans(listed[..|listed| - 1], hit, id);
      if id in Matching(listed[..|listed| - 1], hit) {
        var i :| 0 <= i < |listed| - 1 && listed[..|listed| - 1][i].0 == id && hit(listed[..|listed| - 1][i].1);
        assert listed[i].0 == id && hit(listed[i].1);
      }
    }
  }

  predicate DistinctIds(listed: seq<(Id, string)>) {
    forall i, j | 0 <= i < j < |listed| :: listed[i].0 != listed[j].0
  }

  lemma MatchingGrows(listed: seq<(Id, string)>, i: nat, hit: string -> bool)
    requires DistinctIds(listed) && i < |listed|
    ensures listed[i].0 !in Matching(listed[..i], hit)
    ensures Matching(listed[..i + 1], hit)
         == Matching(listed[..i], hit) + if hit(listed[i].1) then {listed[i].0} else {}
  {
    MatchingMeans(listed[..i], hit, listed[i].0);
    assert listed[..i + 1][..i] == listed[..i];
  }

  lemma KeptApart(a: set<Id>, b: set<Id>, c: set<Id>, ids: set<Id>, id: Id)
    requires a - {id} == b - {id} && b - ids == c - ids
    ensures a - (ids + {id}) == c - (ids + {id})
  {
    assert forall x :: x in a - (ids + {id}) <==> x in (a - {id}) - ids;
    assert forall x :: x in c - (ids + {id}) <==> x in (c - ids) - {id};
  }

  lemma CutTwice(m: map<Id, string>, ids: set<Id>, id: Id)
    ensures m - ids - {id} == m - (ids + {id})
  {
  }

  lemma ListedMatch(containers: map<Id, string>, listed: seq<(Id, string)>)
    requires forall id, image :: (id, image) in listed <==> id in containers && containers[id] == image
    ensures Matching(listed, IsSenjun()) == Leftovers(containers)
  {
    forall id ensures id in Matching(listed, IsSenjun()) <==> id in Leftovers(containers) {
      MatchingMeans(listed, IsSenjun(), id);
      if id in Leftovers(containers) {
        assert (id, containers[id]) in listed;
      }
      if i :| 0 <= i < |listed| && listed[i].0 == id && IsSenjun()(listed[i].1) {
        assert (listed[i].0, listed[i].1) in listed;
      }
    }
  }

  /** The table names this language with this image. */
  predicate Names(types: ContainerTypes, o: Origin) {
    o.kind in types && types[o.kind].imageName == o.image
  }

  /** All containers launched since were launched for a language and from an image that a table names. */
  predicate LaunchedFrom(issued: map<Id, Origin>, issued': map<Id, Origin>, types: ContainerTypes) {
    forall id | id in issued' :: (id in issued && issued[id] == issued'[id]) || Names(types, issued'[id])
  }

  /** The lists of all languages but those still to come have grown by what the table asks for. */
  ghost predicate Passed(
    before: Lists, after: Lists, issued: map<Id, Origin>,
    types: ContainerTypes, failed: multiset<Language>, rest: set<Language>)
  {
    forall l {:trigger Listed(after, l)} ::
      if l in rest then Listed(after, l) == Listed(before, l) && failed[l] == 0
      else GrownBy(Listed(before, l), Listed(after, l), issued, l, types, failed[l])
  }

  lemma PassStep(
    before: Lists, lists: Lists, xs: seq<Launcher>, issued: map<Id, Origin>, issued': map<Id, Origin>,
    types: ContainerTypes, failed: multiset<Language>, rest: set<Language>, l: Language)
    requires Passed(before, lists, issued, types, failed, rest) && l in rest && l in types
    requires Extends(issued, issued') && |xs| <= types[l].launched
    requires forall i | 0 <= i < |xs| :: xs[i].id in issued' && issued'[xs[i].id] == Origin(l, types[l].imageName)
    ensures Passed(before, AddedAll(lists, l, xs), issued', types, failed[l := types[l].launched - |xs|], rest - {l})
    ensures |failed[l := types[l].launched - |xs|]| == |failed| + types[l].launched - |xs|
  {
    var after, failed' := AddedAll(lists, l, xs), failed[l := types[l].launched - |xs|];
    assert Listed(lists, l) == Listed(before, l) && failed[l] == 0;
    forall l'
      ensures
        if l' in rest - {l} then Listed(after, l') == Listed(before, l') && failed'[l'] == 0
        else GrownBy(Listed(before, l'), Listed(after, l'), issued', l', types, failed'[l'])
    {
      assert Listed(lists, l') == Listed(lists, l');
      assert Listed(after, l') == if l' == l then Listed(lists, l) + xs else Listed(lists, l');
    }
  }

  lemma PassCounts(
    before: seq<Launcher>, after: seq<Launcher>, issued: map<Id, Origin>, issued': map<Id, Origin>,
    types: ContainerTypes, failed: nat, o: Origin)
    requires GrownBy(before, after, issued', o.kind, types, failed) && Extends(issued, issued')
    requires forall x | x in before :: x.id in issued
    ensures Count(after, issued', o) + (if Names(types, o) then failed else 0)
         == Count(before, issued, o) + Asked(types, o)
  {
    CountGrown(before, after, issued', types, failed, o);
    CountExtends(before, issued, issued', o);
  }

  lemma ThreePasses(
    config: Config, f: Failures, lists0: Lists, lists1: Lists, lists2: Lists, lists3: Lists,
    issued0: map<Id, Origin>, issued1: map<Id, Origin>, issued2: map<Id, Origin>, issued3: map<Id, Origin>, o: Origin)
    requires Extends(issued0, issued1) && Extends(issued1, issued2) && Extends(issued2, issued3)
    requires
      var k := o.kind;
      && GrownBy(Listed(lists0, k), Listed(lists1, k), issued1, k, config.courses, f.courses[k])
      && GrownBy(Listed(lists1, k), Listed(lists2, k), issued2, k, config.playgrounds, f.playgrounds[k])
      && GrownBy(Listed(lists2, k), Listed(lists3, k), issued3, k, config.practices, f.practices[k])
    requires forall x | x in Listed(lists0, o.kind) :: x.id in issued0
    requires forall x | x in Listed(lists1, o.kind) :: x.id in issued1
    requires forall x | x in Listed(lists2, o.kind) :: x.id in issued2
    ensures Count(Listed(lists3, o.kind), issued3, o) + FailedOf(config, f, o)
         == Count(Listed(lists0, o.kind), issued0, o) + AskedOf(config, o)
  {
    var k := o.kind;
    PassCounts(Listed(lists0, k), Listed(lists1, k), issued0, issued1, config.courses, f.courses[k], o);
    PassCounts(Listed(lists1, k), Listed(lists2, k), issued1, issued2, config.playgrounds, f.playgrounds[k], o);
    PassCounts(Listed(lists2, k), Listed(lists3, k), issued2, issued3, config.practices, f.practices[k], o);
  }

  lemma ListedAreIssued(lists: Lists, docker: map<Id, string>, issued: map<Id, Origin>, l: Language)
    requires Ready(lists, docker, issued)
    ensures forall x | x in Listed(lists, l) :: x.id in issued
  {
    forall x | x in Listed(lists, l) ensures x.id in issued {
      var i :| 0 <= i < |lists[l]| && lists[l][i] == x;
      assert Position(lists, l, i) && Genuine(lists, docker, issued, l, i);
    }
  }
}
