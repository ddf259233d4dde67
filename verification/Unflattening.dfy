/** The listing of a project determines the project. */
module Unflattening {
  import opened Wrappers
  import opened Paths
  import opened Project

  /** A listing can be followed by this one: it starts with a directory or not at all. */
  predicate Continues(es: seq<PathContent>) {
    es == [] || es[0].isDir
  }

  /** A name that does not start at the root. */
  predicate Relative(n: string) {
    n == "" || n[0] != '/'
  }

  /** What the tree needs below its root for its listing to tell all: plain names of directories, and files that are
      not absolute. File names may be empty and may hold separators. */
  predicate Readable(d: Directory)
    decreases d, 0
  {
    (forall f | f in d.files :: Relative(f.name)) && forall s | s in d.directories :: ReadableBelow(s)
  }

  predicate ReadableBelow(d: Directory)
    decreases d, 1
  {
    PlainName(d.name) && Readable(d)
  }

  lemma FileRoundTrip(f: File, path: string)
    requires Relative(f.name) && EndsWithName(path)
    ensures FileOf(FileEntry(f, path), path) == f
  {
  }

  lemma {:induction false} FilesLead(fs: seq<PathContent>, rest: seq<PathContent>)
    requires Continues(rest) && forall e | e in fs :: !e.isDir
    ensures LeadingFiles(fs + rest) == |fs|
  {
    if fs == [] {
      assert fs + rest == rest;
    } else {
      FilesLead(fs[1..], rest);
      assert fs[0] in fs && (fs + rest)[1..] == fs[1..] + rest;
    }
  }

  lemma {:induction false} FilesRoundTrip(files: seq<File>, path: string)
    requires EndsWithName(path) && forall f | f in files :: Relative(f.name)
    ensures FilesOf(FileEntries(files, path), path) == files
  {
    if files != [] {
      FilesRoundTrip(files[1..], path);
      FileRoundTrip(files[0], path);
      assert FileEntries(files, path)[1..] == FileEntries(files[1..], path);
    }
  }

  /** The listing of a sibling does not lie below a directory, and neither does what does not lie below its parent. */
  lemma NotBelowSibling(path: string, n: string, m: string)
    requires PlainName(n) && PlainName(m)
    ensures !(path + "/" + n + "/" < path + "/" + m + "/")
  {
    var a, b := path + "/" + n + "/", path + "/" + m + "/";
    if |a| < |b| {
      assert a[|a| - 1] == '/';
      assert b[|a| - 1] == m[|n|];
      assert m[|n|] in m;
    }
  }

  lemma NotBelowChild(es: seq<PathContent>, path: string, n: string)
    requires !Below(es, path) && EndsWithName(path) && PlainName(n)
    ensures !Below(es, path + "/" + n)
  {
  }

  lemma Slices(e: PathContent, fs: seq<PathContent>, ds: seq<PathContent>, rest: seq<PathContent>)
    ensures var es := [e] + fs + ds + rest;
      es[1..] == fs + (ds + rest) && es[1..1 + |fs|] == fs && es[1 + |fs|..] == ds + rest
  {
  }

  /** The reader takes back exactly what the writer put there, and leaves the rest. */
  lemma {:induction false} ParseFlatten(d: Directory, path: string, rest: seq<PathContent>)
    requires Readable(d) && EndsWithName(path) && Continues(rest) && !Below(rest, path)
    ensures ParseDir(Flatten(d, path) + rest, path, d.name) == (d, rest)
    decreases d, 1
  {
    var fs, ds := FileEntries(d.files, path), FlattenAll(d.directories, path);
    Slices(DirEntry(path), fs, ds, rest);
    ContinuesAll(d.directories, path, rest);
    FileEntriesAreFiles(d.files, path);
    FilesLead(fs, ds + rest);
    FilesRoundTrip(d.files, path);
    ParseFlattenAll(d.directories, path, rest);
  }

  lemma ContinuesAll(ds: seq<Directory>, path: string, rest: seq<PathContent>)
    requires Continues(rest)
    ensures Continues(FlattenAll(ds, path) + rest)
  {
  }

  lemma SiblingsNotBelow(ds: seq<Directory>, path: string, rest: seq<PathContent>, n: string)
    requires EndsWithName(path) && PlainName(n) && !Below(rest, path) && forall s | s in ds :: ReadableBelow(s)
    ensures !Below(FlattenAll(ds, path) + rest, path + "/" + n)
  {
    if ds == [] {
      assert FlattenAll(ds, path) + rest == rest;
      NotBelowChild(rest, path, n);
    } else {
      assert ReadableBelow(ds[0]);
      JoinPlain(path, ds[0].name);
      NotBelowSibling(path, n, ds[0].name);
    }
  }

  lemma ParseHead(es: seq<PathContent>, path: string, d: Directory, others: seq<PathContent>)
    requires PlainName(d.name) && es != [] && es[0] == DirEntry(path + "/" + d.name)
    requires ParseDir(es, path + "/" + d.name, d.name) == (d, others)
    ensures ParseDirs(es, path) == ([d] + ParseDirs(others, path).0, ParseDirs(others, path).1)
  {
  }

  lemma FlattenAllHead(ds: seq<Directory>, path: string, rest: seq<PathContent>)
    requires ds != [] && EndsWithName(path) && PlainName(ds[0].name)
    ensures FlattenAll(ds, path) + rest == Flatten(ds[0], path + "/" + ds[0].name) + (FlattenAll(ds[1..], path) + rest)
    ensures (FlattenAll(ds, path) + rest)[0] == DirEntry(path + "/" + ds[0].name)
    ensures EndsWithName(path + "/" + ds[0].name)
  {
    JoinPlain(path, ds[0].name);
  }

  lemma {:induction false} ParseFlattenAll(ds: seq<Directory>, path: string, rest: seq<PathContent>)
    requires (forall s | s in ds :: ReadableBelow(s)) && EndsWithName(path) && Continues(rest) && !Below(rest, path)
    ensures ParseDirs(FlattenAll(ds, path) + rest, path) == (ds, rest)
    decreases ds, 0
  {
    if ds == [] {
      assert FlattenAll(ds, path) + rest == rest;
    } else {
      var d, others := ds[0], FlattenAll(ds[1..], path) + rest;
      assert d in ds && ds == [d] + ds[1..];
      FlattenAllHead(ds, path, rest);
      ContinuesAll(ds[1..], path, rest);
      SiblingsNotBelow(ds[1..], path, rest, d.name);
      ParseFlatten(d, path + "/" + d.name, others);
      ParseHead(FlattenAll(ds, path) + rest, path, d, others);
      ParseFlattenAll(ds[1..], path, rest);
    }
  }

  /** Every readable project is rebuilt from its listing, siblings of the same name included. */
  lemma UnflattenFlatten(d: Directory)
    requires Readable(d) && EndsWithName(d.name)
    ensures Unflatten(Flatten(d, d.name)) == Some(d)
  {
    var es := Flatten(d, d.name);
    assert es[0] == DirEntry(d.name) && (d.name + "/")[..|d.name|] == d.name;
    ParseFlatten(d, d.name, []);
    assert es + [] == es;
  }

  /** Hence no two readable projects have the same listing. */
  lemma FlattenIsInjective(d: Directory, d': Directory)
    requires Readable(d) && EndsWithName(d.name) && Readable(d') && EndsWithName(d'.name)
    requires Flatten(d, d.name) == Flatten(d', d'.name)
    ensures d == d'
  {
    UnflattenFlatten(d);
    UnflattenFlatten(d');
  }

  /** Well-named projects are readable. */
  lemma {:induction false} WellFilledIsReadable(d: Directory)
    requires WellFilled(d)
    ensures Readable(d)
  {
    forall f | f in d.files ensures Relative(f.name) {
      assert f.name[0] in f.name;
    }
    forall s | s in d.directories ensures ReadableBelow(s) {
      assert WellNamed(s);
      WellFilledIsReadable(s);
    }
  }

  // ---- Nothing of this can be left out: without it different projects have the same listing

  function Empty(name: string): Directory {
    Directory(name, [], [])
  }

  lemma ListingOfOne(p: string, d: Directory)
    ensures Flatten(Directory(p, [], [d]), p) == [DirEntry(p)] + Flatten(d, Join(p, d.name))
  {
    assert FlattenAll([d], p) == Flatten(d, Join(p, d.name));
  }

  lemma ListingOfTwo(p: string, d: Directory, e: Directory)
    ensures Flatten(Directory(p, [], [d, e]), p)
         == [DirEntry(p)] + Flatten(d, Join(p, d.name)) + Flatten(e, Join(p, e.name))
  {
    var a, b := Flatten(d, Join(p, d.name)), Flatten(e, Join(p, e.name));
    assert FlattenAll([d], p) == a;
    FlattenAllLast([d], e, p);
    assert [d] + [e] == [d, e];
    assert [DirEntry(p)] + FileEntries([], p) == [DirEntry(p)];
    assert [DirEntry(p)] + (a + b) == [DirEntry(p)] + a + b;
  }

  /** A directory in a directory looks like two directories, if the two paths come out the same. */
  lemma NestedLooksBeside(p: string, n: string, m: string, m': string)
    requires Join(Join(p, n), m) == Join(p, m')
    ensures
      var nested, beside := Directory(p, [], [Directory(n, [], [Empty(m)])]), Directory(p, [], [Empty(n), Empty(m')]);
      nested != beside && Flatten(nested, p) == Flatten(beside, p)
  {
    var q := Join(p, n);
    ListingOfOne(p, Directory(n, [], [Empty(m)]));
    ListingOfTwo(p, Empty(n), Empty(m'));
    assert Flatten(Empty(n), q) == [DirEntry(q)];
    assert Flatten(Directory(n, [], [Empty(m)]), q) == [DirEntry(q)] + Flatten(Empty(m), Join(q, m)) by {
      assert FlattenAll([Empty(m)], q) == Flatten(Empty(m), Join(q, m));
    }
  }

  /** So it is for a name with a separator in it. */
  lemma SeparatorsCollide(p: string, n: string, m: string)
    requires EndsWithName(p) && PlainName(n) && PlainName(m)
    ensures
      var m' := n + "/" + m;
      var nested, beside := Directory(p, [], [Directory(n, [], [Empty(m)])]), Directory(p, [], [Empty(n), Empty(m')]);
      nested != beside && Flatten(nested, p) == Flatten(beside, p)
  {
    JoinPlain(p, n);
    JoinPlain(p + "/" + n, m);
    assert n[0] in n;
    assert Join(p, n + "/" + m) == p + "/" + (n + "/" + m) == Join(Join(p, n), m);
    NestedLooksBeside(p, n, m, n + "/" + m);
  }

  /** So it is for an empty name. */
  lemma EmptyNamesCollide(p: string, m: string)
    requires EndsWithName(p) && PlainName(m)
    ensures
      var nested, beside := Directory(p, [], [Directory("", [], [Empty(m)])]), Directory(p, [], [Empty(""), Empty(m)]);
      nested != beside && Flatten(nested, p) == Flatten(beside, p)
  {
    assert m[0] in m;
    assert Join(p, "") == p + "/" && Join(p + "/", m) == p + "/" + m == Join(p, m);
    NestedLooksBeside(p, "", m, m);
  }

  /** And an absolute file in an absolute project looks like a file of the project. */
  lemma AbsoluteFilesCollide(p: string, n: string)
    requires EndsWithName(p) && p[0] == '/' && PlainName(n)
    ensures
      var here, there := Directory(p, [File(n, "", false)], []), Directory(p, [File(p + "/" + n, "", false)], []);
      here != there && Flatten(here, p) == Flatten(there, p)
  {
    JoinPlain(p, n);
    assert Join(p, p + "/" + n) == p + "/" + n;
    assert '/' in p + "/" + n;
    assert FileEntries([File(n, "", false)], p) == FileEntries([File(p + "/" + n, "", false)], p);
  }
}
