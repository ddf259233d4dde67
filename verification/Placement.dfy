/** What of a document is listed, where and in which order. */
module Placement {
  import opened Paths
  import opened Project
  import opened Traversal

  /** Where a node is in a document: the index of a child at every level. */
  type Location = seq<nat>

  /** A child with contents, whatever else it has. */
  predicate FileNode(c: Node) {
    c.contents.Some?
  }

  /** A child without contents, but with children, be they none or no array. */
  predicate DirectoryNode(c: Node) {
    c.contents.None? && !c.children.NoChildren?
  }

  /** The location leads to a directory, the document itself being one, or to a file, which is never passed through. */
  predicate At(n: Node, l: Location) {
    l == [] || (l[0] < |ChildrenOf(n)| &&
                var c := ChildrenOf(n)[l[0]];
                (FileNode(c) && |l| == 1) || (DirectoryNode(c) && At(c, l[1..])))
  }

  function NodeAt(n: Node, l: Location): Node
    requires At(n, l)
  {
    if |l| <= 1 then if l == [] then n else ChildrenOf(n)[l[0]] else NodeAt(ChildrenOf(n)[l[0]], l[1..])
  }

  predicate FileAt(n: Node, l: Location) {
    l != [] && At(n, l) && FileNode(NodeAt(n, l))
  }

  /** The names on the way, each as far as it is kept. */
  predicate NamesOnTheWay(n: Node, l: Location, names: seq<string>) {
    if l == [] then names == []
    else
      && names != []
      && l[0] < |ChildrenOf(n)|
      && KeptName(ChildrenOf(n)[l[0]].name, names[0])
      && NamesOnTheWay(ChildrenOf(n)[l[0]], l[1..], names[1..])
  }

  function JoinAll(path: string, names: seq<string>): string
    decreases |names|
  {
    if names == [] then path else JoinAll(Join(path, names[0]), names[1..])
  }

  /** What a listing under `path` has to say of a location, with these names on the way to it. */
  predicate SaysWith(n: Node, l: Location, path: string, e: PathContent, names: seq<string>)
    requires At(n, l)
  {
    && NamesOnTheWay(n, l, names)
    && if FileAt(n, l) then
         && e.path == JoinAll(path, names)
         && KeptContents(NodeAt(n, l).contents.value, e.content)
         && e.isMain == NodeAt(n, l).isMain
         && !e.isDir
       else e == PathContent(JoinAll(path, names) + "/", "", false, true)
  }

  ghost predicate Says(n: Node, l: Location, path: string, e: PathContent)
    requires At(n, l)
  {
    exists names :: SaysWith(n, l, path, e, names)
  }

  function EntryAt(n: Node, l: Location, path: string): PathContent
    requires At(n, l)
  {
    if l == [] then DirEntry(path)
    else
      var c := ChildrenOf(n)[l[0]];
      if FileNode(c) then FileEntry(FileFrom(c), path) else EntryAt(c, l[1..], Join(path, NameOf(c)))
  }

  lemma {:induction false} EntrySays(n: Node, l: Location, path: string) returns (names: seq<string>)
    requires At(n, l)
    ensures SaysWith(n, l, path, EntryAt(n, l, path), names)
  {
    if l == [] {
      names := [];
    } else {
      var c := ChildrenOf(n)[l[0]];
      if FileNode(c) {
        names := [FileFrom(c).name];
        assert JoinAll(Join(path, names[0]), names[1..]) == Join(path, names[0]);
      } else {
        var rest := EntrySays(c, l[1..], Join(path, NameOf(c)));
        names := [NameOf(c)] + rest;
        assert names[1..] == rest;
      }
    }
  }

  // ---- All locations, in the order of the listing

  function FileLocations(n: Node, i: nat): seq<Location>
    decreases |ChildrenOf(n)| - i
  {
    if i >= |ChildrenOf(n)| then [] else FileLocation(n, i) + FileLocations(n, i + 1)
  }

  function FileLocation(n: Node, i: nat): seq<Location>
    requires i < |ChildrenOf(n)|
  {
    if FileNode(ChildrenOf(n)[i]) then [[i]] else []
  }

  function Prefixed(i: nat, ls: seq<Location>): (r: seq<Location>)
    ensures |r| == |ls| && forall k | 0 <= k < |ls| :: r[k] == [i] + ls[k]
  {
    if ls == [] then [] else [[i] + ls[0]] + Prefixed(i, ls[1..])
  }

  function InnerLocations(n: Node, i: nat): seq<Location>
    decreases n, 1, |ChildrenOf(n)| - i
  {
    if i >= |ChildrenOf(n)| then [] else LocationsBelow(n, i) + InnerLocations(n, i + 1)
  }

  function LocationsBelow(n: Node, i: nat): seq<Location>
    requires i < |ChildrenOf(n)|
    decreases n, 0, 0
  {
    var c := ChildrenOf(n)[i];
    assert c in ChildrenOf(n);
    if DirectoryNode(c) then Prefixed(i, Locations(c)) else []
  }

  function Locations(n: Node): seq<Location>
    decreases n, 2
  {
    [[]] + FileLocations(n, 0) + InnerLocations(n, 0)
  }

  predicate AllAt(n: Node, ls: seq<Location>) {
    forall l | l in ls :: At(n, l)
  }

  /** A location of a subtree, seen from the parent. */
  lemma AtBelow(n: Node, i: nat, l: Location, path: string)
    requires i < |ChildrenOf(n)| && DirectoryNode(ChildrenOf(n)[i]) && At(ChildrenOf(n)[i], l)
    ensures At(n, [i] + l)
    ensures EntryAt(n, [i] + l, path) == EntryAt(ChildrenOf(n)[i], l, Join(path, NameOf(ChildrenOf(n)[i])))
  {
    assert ([i] + l)[1..] == l;
  }

  /** A location of a file among the children, from index `i` on. */
  predicate OuterFrom(n: Node, i: nat, l: Location) {
    |l| == 1 && i <= l[0] < |ChildrenOf(n)| && FileNode(ChildrenOf(n)[l[0]])
  }

  /** A location in a subdirectory, from index `i` on. */
  predicate InnerFrom(n: Node, i: nat, l: Location) {
    l != [] && At(n, l) && i <= l[0] && DirectoryNode(ChildrenOf(n)[l[0]])
  }

  lemma {:induction false} FileLocationsAre(n: Node, i: nat)
    ensures forall l | l in FileLocations(n, i) :: OuterFrom(n, i, l)
    decreases |ChildrenOf(n)| - i
  {
    if i < |ChildrenOf(n)| {
      FileLocationsAre(n, i + 1);
    }
  }

  lemma {:induction false} LocationsBelowAre(n: Node, i: nat)
    requires i < |ChildrenOf(n)|
    ensures forall l | l in LocationsBelow(n, i) :: InnerFrom(n, i, l) && l[0] == i
    decreases n, 0, 0
  {
    var c := ChildrenOf(n)[i];
    assert c in ChildrenOf(n);
    if DirectoryNode(c) {
      LocationsAre(c);
      PrefixedAre(n, i, Locations(c));
    }
  }

  lemma {:induction false} InnerLocationsAre(n: Node, i: nat)
    ensures forall l | l in InnerLocations(n, i) :: InnerFrom(n, i, l)
    decreases n, 1, |ChildrenOf(n)| - i
  {
    if i < |ChildrenOf(n)| {
      LocationsBelowAre(n, i);
      InnerLocationsAre(n, i + 1);
    }
  }

  lemma PrefixedAre(n: Node, i: nat, ls: seq<Location>)
    requires i < |ChildrenOf(n)| && DirectoryNode(ChildrenOf(n)[i]) && AllAt(ChildrenOf(n)[i], ls)
    ensures forall l | l in Prefixed(i, ls) :: InnerFrom(n, i, l) && l[0] == i
  {
    var ps := Prefixed(i, ls);
    forall l | l in ps ensures InnerFrom(n, i, l) && l[0] == i {
      var k :| 0 <= k < |ps| && ps[k] == l;
      assert ls[k] in ls;
      AtBelow(n, i, ls[k], "");
    }
  }

  lemma {:induction false} LocationsAre(n: Node)
    ensures AllAt(n, Locations(n))
    decreases n, 2
  {
    FileLocationsAre(n, 0);
    InnerLocationsAre(n, 0);
  }

  lemma {:induction false} FileLocationIn(n: Node, i: nat, k: nat)
    requires i <= k < |ChildrenOf(n)| && FileNode(ChildrenOf(n)[k])
    ensures [k] in FileLocations(n, i)
    decreases |ChildrenOf(n)| - i
  {
    if i < k {
      FileLocationIn(n, i + 1, k);
    }
  }

  lemma PrefixedIn(i: nat, ls: seq<Location>, l: Location)
    requires l != [] && l[0] == i && l[1..] in ls
    ensures l in Prefixed(i, ls)
  {
    var k :| 0 <= k < |ls| && ls[k] == l[1..];
    assert Prefixed(i, ls)[k] == [i] + l[1..] == l;
  }

  lemma {:induction false} InnerLocationIn(n: Node, i: nat, l: Location)
    requires InnerFrom(n, i, l) && l[1..] in Locations(ChildrenOf(n)[l[0]])
    ensures l in InnerLocations(n, i)
    decreases |ChildrenOf(n)| - i
  {
    if i < l[0] {
      InnerLocationIn(n, i + 1, l);
    } else {
      PrefixedIn(i, Locations(ChildrenOf(n)[i]), l);
    }
  }

  /** No location is left out. */
  lemma {:induction false} LocationsAreAll(n: Node, l: Location)
    requires At(n, l)
    ensures l in Locations(n)
    decreases |l|
  {
    if l != [] {
      if FileNode(ChildrenOf(n)[l[0]]) {
        FileLocationIn(n, 0, l[0]);
        assert l == [l[0]];
      } else {
        LocationsAreAll(ChildrenOf(n)[l[0]], l[1..]);
        InnerLocationIn(n, 0, l);
      }
    }
  }

  // ---- They are in order

  /** The order of the listing: a directory, then its files, then its subdirectories, each kind by its index. */
  predicate Precedes(n: Node, a: Location, b: Location) {
    && b != []
    && (a == [] ||
        (&& a[0] < |ChildrenOf(n)|
         && b[0] < |ChildrenOf(n)|
         && var c, d := ChildrenOf(n)[a[0]], ChildrenOf(n)[b[0]];
            if FileNode(c) != FileNode(d) then FileNode(c)
            else a[0] < b[0] || (a[0] == b[0] && Precedes(c, a[1..], b[1..]))))
  }

  lemma {:induction false} PrecedesIsAnOrder(n: Node, a: Location, b: Location)
    requires Precedes(n, a, b)
    ensures a != b && !Precedes(n, b, a)
    decreases |a|
  {
    if a != [] && a[0] == b[0] {
      PrecedesIsAnOrder(ChildrenOf(n)[a[0]], a[1..], b[1..]);
    }
  }

  predicate Sorted(n: Node, ls: seq<Location>) {
    forall i, j | 0 <= i < j < |ls| :: Precedes(n, ls[i], ls[j])
  }

  lemma SortedAppend(n: Node, a: seq<Location>, b: seq<Location>)
    requires Sorted(n, a) && Sorted(n, b) && forall x, y | x in a && y in b :: Precedes(n, x, y)
    ensures Sorted(n, a + b)
  {
  }

  lemma {:induction false} FileLocationsSorted(n: Node, i: nat)
    ensures Sorted(n, FileLocations(n, i))
    decreases |ChildrenOf(n)| - i
  {
    if i < |ChildrenOf(n)| {
      FileLocationsSorted(n, i + 1);
      FileLocationsAre(n, i + 1);
      SortedAppend(n, FileLocation(n, i), FileLocations(n, i + 1));
    }
  }

  lemma PrefixedSorted(n: Node, i: nat, ls: seq<Location>)
    requires i < |ChildrenOf(n)| && Sorted(ChildrenOf(n)[i], ls)
    ensures Sorted(n, Prefixed(i, ls))
  {
    var ps := Prefixed(i, ls);
    forall j, k | 0 <= j < k < |ps| ensures Precedes(n, ps[j], ps[k]) {
      assert Precedes(ChildrenOf(n)[i], ls[j], ls[k]);
      assert ps[j][1..] == ls[j] && ps[k][1..] == ls[k];
    }
  }

  lemma {:induction false} LocationsBelowSorted(n: Node, i: nat)
    requires i < |ChildrenOf(n)|
    ensures Sorted(n, LocationsBelow(n, i))
    decreases n, 0, 0
  {
    var c := ChildrenOf(n)[i];
    assert c in ChildrenOf(n);
    if DirectoryNode(c) {
      LocationsAreSorted(c);
      PrefixedSorted(n, i, Locations(c));
    }
  }

  lemma {:induction false} InnerLocationsSorted(n: Node, i: nat)
    ensures Sorted(n, InnerLocations(n, i))
    decreases n, 1, |ChildrenOf(n)| - i
  {
    if i < |ChildrenOf(n)| {
      LocationsBelowSorted(n, i);
      LocationsBelowAre(n, i);
      InnerLocationsSorted(n, i + 1);
      InnerLocationsAre(n, i + 1);
      SortedAppend(n, LocationsBelow(n, i), InnerLocations(n, i + 1));
    }
  }

  lemma {:induction false} LocationsAreSorted(n: Node)
    ensures Sorted(n, Locations(n))
    decreases n, 2
  {
    FileLocationsSorted(n, 0);
    InnerLocationsSorted(n, 0);
    FileLocationsAre(n, 0);
    InnerLocationsAre(n, 0);
    SortedAppend(n, [[]], FileLocations(n, 0));
    SortedAppend(n, [[]] + FileLocations(n, 0), InnerLocations(n, 0));
  }

  // ---- The listing has their entries

  function EntriesAt(n: Node, ls: seq<Location>, path: string): (es: seq<PathContent>)
    requires AllAt(n, ls)
    ensures |es| == |ls| && forall i | 0 <= i < |ls| :: At(n, ls[i]) && es[i] == EntryAt(n, ls[i], path)
  {
    if ls == [] then []
    else
      assert ls[0] in ls;
      [EntryAt(n, ls[0], path)] + EntriesAt(n, ls[1..], path)
  }

  lemma EntriesAtAppend(n: Node, a: seq<Location>, b: seq<Location>, path: string)
    requires AllAt(n, a) && AllAt(n, b)
    ensures AllAt(n, a + b) && EntriesAt(n, a + b, path) == EntriesAt(n, a, path) + EntriesAt(n, b, path)
  {
  }

  lemma EntriesBelow(n: Node, i: nat, ls: seq<Location>, path: string)
    requires i < |ChildrenOf(n)| && DirectoryNode(ChildrenOf(n)[i]) && AllAt(ChildrenOf(n)[i], ls)
    ensures AllAt(n, Prefixed(i, ls))
    ensures EntriesAt(n, Prefixed(i, ls), path)
         == EntriesAt(ChildrenOf(n)[i], ls, Join(path, NameOf(ChildrenOf(n)[i])))
  {
    PrefixedAre(n, i, ls);
    forall k | 0 <= k < |ls|
      ensures EntriesAt(n, Prefixed(i, ls), path)[k]
           == EntriesAt(ChildrenOf(n)[i], ls, Join(path, NameOf(ChildrenOf(n)[i])))[k]
    {
      AtBelow(n, i, ls[k], path);
    }
  }

  lemma {:induction false} FileEntriesAppend(a: seq<File>, b: seq<File>, path: string)
    ensures FileEntries(a + b, path) == FileEntries(a, path) + FileEntries(b, path)
  {
    if a == [] {
      assert a + b == b;
    } else {
      assert (a + b)[1..] == a[1..] + b;
      FileEntriesAppend(a[1..], b, path);
    }
  }

  lemma FileIsAt(n: Node, i: nat, path: string)
    requires i < |ChildrenOf(n)|
    ensures AllAt(n, FileLocation(n, i))
    ensures FileEntries(FileIn(ChildrenOf(n)[i]), path) == EntriesAt(n, FileLocation(n, i), path)
  {
  }

  lemma {:induction false} FilesAreAt(n: Node, i: nat, path: string)
    requires i <= |ChildrenOf(n)|
    ensures AllAt(n, FileLocations(n, i))
    ensures FileEntries(FilesFrom(ChildrenOf(n)[i..]), path) == EntriesAt(n, FileLocations(n, i), path)
    decreases |ChildrenOf(n)| - i
  {
    FileLocationsAre(n, i);
    if i < |ChildrenOf(n)| {
      var nodes := ChildrenOf(n)[i..];
      assert nodes[1..] == ChildrenOf(n)[i + 1..];
      FilesAreAt(n, i + 1, path);
      FileIsAt(n, i, path);
      FileEntriesAppend(FileIn(nodes[0]), FilesFrom(nodes[1..]), path);
      EntriesAtAppend(n, FileLocation(n, i), FileLocations(n, i + 1), path);
    }
  }

  lemma {:induction false} FlattenAllAppend(a: seq<Directory>, b: seq<Directory>, path: string)
    ensures FlattenAll(a + b, path) == FlattenAll(a, path) + FlattenAll(b, path)
  {
    if a == [] {
      assert a + b == b;
    } else {
      assert (a + b)[1..] == a[1..] + b;
      FlattenAllAppend(a[1..], b, path);
    }
  }

  lemma {:induction false} SubdirectoryIsAt(n: Node, i: nat, path: string)
    requires i < |ChildrenOf(n)|
    ensures AllAt(n, LocationsBelow(n, i))
    ensures FlattenAll(DirectoryIn(ChildrenOf(n)[i]), path) == EntriesAt(n, LocationsBelow(n, i), path)
    decreases n, 0, 0
  {
    var c := ChildrenOf(n)[i];
    assert c in ChildrenOf(n);
    if DirectoryNode(c) {
      ListingOfTheDocument(c, Join(path, NameOf(c)));
      EntriesBelow(n, i, Locations(c), path);
      var d := DirectoryFrom(c);
      assert FlattenAll([d], path) == Flatten(d, Join(path, d.name));
    }
  }

  lemma {:induction false} SubdirectoriesAreAt(n: Node, i: nat, path: string)
    requires i <= |ChildrenOf(n)|
    ensures AllAt(n, InnerLocations(n, i))
    ensures FlattenAll(DirectoriesFrom(ChildrenOf(n)[i..]), path) == EntriesAt(n, InnerLocations(n, i), path)
    decreases n, 1, |ChildrenOf(n)| - i
  {
    InnerLocationsAre(n, i);
    if i < |ChildrenOf(n)| {
      var nodes := ChildrenOf(n)[i..];
      assert nodes[1..] == ChildrenOf(n)[i + 1..];
      SubdirectoryIsAt(n, i, path);
      SubdirectoriesAreAt(n, i + 1, path);
      FlattenAllAppend(DirectoryIn(nodes[0]), DirectoriesFrom(nodes[1..]), path);
      EntriesAtAppend(n, LocationsBelow(n, i), InnerLocations(n, i + 1), path);
    }
  }

  lemma DirectoryFromChildren(n: Node)
    ensures DirectoryFrom(n) == Directory(NameOf(n), FilesFrom(ChildrenOf(n)), DirectoriesFrom(ChildrenOf(n)))
  {
  }

  /** The listing of a document has the entries of all its locations, in order. */
  lemma {:induction false} ListingOfTheDocument(n: Node, path: string)
    ensures AllAt(n, Locations(n))
    ensures Flatten(DirectoryFrom(n), path) == EntriesAt(n, Locations(n), path)
    decreases n, 2
  {
    DirectoryFromChildren(n);
    assert ChildrenOf(n)[0..] == ChildrenOf(n);
    FilesAreAt(n, 0, path);
    SubdirectoriesAreAt(n, 0, path);
    EntriesAtAppend(n, [[]], FileLocations(n, 0), path);
    EntriesAtAppend(n, [[]] + FileLocations(n, 0), InnerLocations(n, 0), path);
    assert EntriesAt(n, [[]], path) == [DirEntry(path)];
  }

  /** The listing says of every location what there is to say, and nothing else, in the order of the locations. */
  lemma ListingSays(n: Node, path: string, i: nat)
    requires i < |Flatten(DirectoryFrom(n), path)|
    ensures |Flatten(DirectoryFrom(n), path)| == |Locations(n)| && At(n, Locations(n)[i])
    ensures Says(n, Locations(n)[i], path, Flatten(DirectoryFrom(n), path)[i])
  {
    ListingOfTheDocument(n, path);
    var _ := EntrySays(n, Locations(n)[i], path);
  }

  // ---- How many there are

  /** The nodes with contents that are reached, from the child with index `i` on. */
  function FileNodes(n: Node, i: nat): nat
    decreases n, |ChildrenOf(n)| - i
  {
    if i >= |ChildrenOf(n)| then 0
    else
      var c := ChildrenOf(n)[i];
      assert c in ChildrenOf(n);
      (if FileNode(c) then 1 else if DirectoryNode(c) then FileNodes(c, 0) else 0) + FileNodes(n, i + 1)
  }

  /** The nodes with children and without contents that are reached, from the child with index `i` on. */
  function DirectoryNodes(n: Node, i: nat): nat
    decreases n, |ChildrenOf(n)| - i
  {
    if i >= |ChildrenOf(n)| then 0
    else
      var c := ChildrenOf(n)[i];
      assert c in ChildrenOf(n);
      (if DirectoryNode(c) then 1 + DirectoryNodes(c, 0) else 0) + DirectoryNodes(n, i + 1)
  }

  lemma {:induction false} LocationsCount(n: Node, i: nat)
    ensures |FileLocations(n, i)| + |InnerLocations(n, i)| == FileNodes(n, i) + DirectoryNodes(n, i)
    decreases n, |ChildrenOf(n)| - i
  {
    if i < |ChildrenOf(n)| {
      assert ChildrenOf(n)[i] in ChildrenOf(n);
      LocationsCount(n, i + 1);
      LocationsCount(ChildrenOf(n)[i], 0);
      var c := ChildrenOf(n)[i];
      assert |Locations(c)| == 1 + |FileLocations(c, 0)| + |InnerLocations(c, 0)|;
      assert |LocationsBelow(n, i)| == if DirectoryNode(c) then |Locations(c)| else 0;
    }
  }

  /** There is one entry for the document, and one for each file node and each directory node reached in it. */
  lemma DocumentCount(n: Node, path: string)
    ensures |Flatten(DirectoryFrom(n), path)| == 1 + FileNodes(n, 0) + DirectoryNodes(n, 0)
  {
    ListingOfTheDocument(n, path);
    LocationsCount(n, 0);
  }
}
