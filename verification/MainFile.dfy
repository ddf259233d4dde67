/** Which file of a project is the main one. */
module MainFile {
  import opened Wrappers
  import opened Paths
  import opened Project
  import opened Traversal
  import opened Placement

  /** The path of the first entry marked as main. */
  function FirstMain(es: seq<PathContent>): Option<string> {
    if es == [] then None else if es[0].isMain then Some(es[0].path) else FirstMain(es[1..])
  }

  /** The search; `None` stands for the exception when there is no main file. */
  method GetMainFile(pathContents: seq<PathContent>) returns (r: Option<string>)
    ensures r == FirstMain(pathContents)
  {
    for i := 0 to |pathContents|
      invariant FirstMain(pathContents) == FirstMain(pathContents[i..])
    {
      if pathContents[i].isMain {
        return Some(pathContents[i].path);
      }
    }
    return None;
  }

  predicate MarkedMain(n: Node, l: Location) {
    FileAt(n, l) && NodeAt(n, l).isMain
  }

  lemma MainEntries(n: Node, l: Location, path: string)
    requires At(n, l)
    ensures EntryAt(n, l, path).isMain <==> MarkedMain(n, l)
  {
    var _ := EntrySays(n, l, path);
  }

  /** The first marked location in a list of locations. */
  predicate FirstIn(n: Node, ls: seq<Location>, l: Location) {
    l in ls && MarkedMain(n, l) && forall m | m in ls && MarkedMain(n, m) :: m == l || Precedes(n, l, m)
  }

  lemma FirstInTail(n: Node, ls: seq<Location>, l: Location)
    requires ls != [] && !MarkedMain(n, ls[0]) && FirstIn(n, ls[1..], l)
    ensures FirstIn(n, ls, l)
  {
    forall m | m in ls && MarkedMain(n, m) ensures m == l || Precedes(n, l, m) {
      assert m in ls[1..];
    }
  }

  lemma {:induction false} FirstMainAmong(n: Node, ls: seq<Location>, path: string) returns (l: Location)
    requires AllAt(n, ls) && Sorted(n, ls)
    ensures var r := FirstMain(EntriesAt(n, ls, path));
      && (r == None ==> forall m | m in ls :: !MarkedMain(n, m))
      && (r.Some? ==> FirstIn(n, ls, l) && r.value == EntryAt(n, l, path).path)
  {
    l := [];
    if ls != [] {
      assert ls[0] in ls;
      MainEntries(n, ls[0], path);
      assert EntriesAt(n, ls, path)[1..] == EntriesAt(n, ls[1..], path);
      if MarkedMain(n, ls[0]) {
        l := ls[0];
      } else {
        l := FirstMainAmong(n, ls[1..], path);
        if FirstMain(EntriesAt(n, ls[1..], path)).Some? {
          FirstInTail(n, ls, l);
        }
      }
    }
  }

  /** The location comes before all other locations of files marked as main. */
  ghost predicate IsFirstMain(n: Node, l: Location) {
    MarkedMain(n, l) && forall m | MarkedMain(n, m) :: m == l || Precedes(n, l, m)
  }

  lemma FirstMainIsUnique(n: Node, l: Location, m: Location)
    requires IsFirstMain(n, l) && IsFirstMain(n, m)
    ensures l == m
  {
    if Precedes(n, l, m) {
      PrecedesIsAnOrder(n, l, m);
    }
  }

  /** The location and the names on the way to it make up the path. */
  ghost predicate LeadsTo(n: Node, l: Location, path: string, full: string) {
    exists names :: NamesOnTheWay(n, l, names) && full == JoinAll(path, names)
  }

  /** Through both recursions: the lookup fails exactly if no file of the document that is reached is marked as main,
      and otherwise gives the names on the way to the first such file, files coming before subdirectories. */
  lemma MainFileOfADocument(n: Node, path: string)
    ensures var r := FirstMain(Flatten(DirectoryFrom(n), path));
      && (r == None <==> forall l :: !MarkedMain(n, l))
      && (r.Some? ==> exists l | IsFirstMain(n, l) :: LeadsTo(n, l, path, r.value))
  {
    ListingOfTheDocument(n, path);
    LocationsAreSorted(n);
    var l := FirstMainAmong(n, Locations(n), path);
    forall m | MarkedMain(n, m) ensures m in Locations(n) {
      LocationsAreAll(n, m);
    }
    var r := FirstMain(Flatten(DirectoryFrom(n), path));
    if r.Some? {
      var names := EntrySays(n, l, path);
      assert IsFirstMain(n, l) && LeadsTo(n, l, path, r.value);
    }
  }

  /** A project and its main file from a document, as a request for a practice brings it: the listing says of every
      location of the document what the JSON says, in order, and nothing else. */
  method ParsePractice(document: Node) returns (name: string, paths: seq<PathContent>, main: Option<string>)
    requires FilesAreNamed(document)
    ensures KeptName(document.name, name)
    ensures paths == Flatten(DirectoryFrom(document), name) && |paths| == |Locations(document)|
    ensures |paths| == 1 + FileNodes(document, 0) + DirectoryNodes(document, 0)
    ensures forall i | 0 <= i < |paths| ::
              At(document, Locations(document)[i]) && Says(document, Locations(document)[i], name, paths[i])
    ensures forall l | At(document, l) :: l in Locations(document)
    ensures forall e | e in paths :: if e.isDir then e.content == "" else e.content != ""
    ensures main == None <==> forall l :: !MarkedMain(document, l)
    ensures main.Some? ==> exists l | IsFirstMain(document, l) :: LeadsTo(document, l, name, main.value)
  {
    var directory := RecursiveDirectoryTraverse(document);
    name := directory.name;
    paths := GetPathsToFiles(directory);
    main := GetMainFile(paths);
    DocumentCount(document, name);
    ListingOfTheDocument(document, name);
    forall i | 0 <= i < |paths|
      ensures At(document, Locations(document)[i]) && Says(document, Locations(document)[i], name, paths[i])
    {
      ListingSays(document, name, i);
    }
    forall l | At(document, l) ensures l in Locations(document) {
      LocationsAreAll(document, l);
    }
    MainFileOfADocument(document, name);
  }
}
