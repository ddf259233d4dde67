/** What an unpacker needs of the listing of a project: parents come first, and paths do not repeat. */
module Listing {
  import opened Paths
  import opened Project

  // ---- Parents come first

  /** The directory that entry `i` lies in has been listed before, or is `p`, listed already. */
  predicate HasParent(es: seq<PathContent>, i: nat, p: string)
    requires i < |es|
  {
    var parent := ParentOf(es[i].path, es[i].isDir);
    parent == p || exists j: nat | j < i :: es[j].isDir && es[j].path == parent
  }

  predicate Covered(es: seq<PathContent>, p: string) {
    forall i: nat | i < |es| :: HasParent(es, i, p)
  }

  lemma CoveredAppend(a: seq<PathContent>, b: seq<PathContent>, p: string)
    requires Covered(a, p) && Covered(b, p)
    ensures Covered(a + b, p)
  {
    forall i: nat | i < |a + b| ensures HasParent(a + b, i, p) {
      if i < |a| {
        HasParentBefore(a, b, i, p);
      } else {
        HasParentBehind(a, b, i - |a|, p);
      }
    }
  }

  lemma HasParentBefore(a: seq<PathContent>, b: seq<PathContent>, i: nat, p: string)
    requires i < |a| && HasParent(a, i, p)
    ensures HasParent(a + b, i, p)
  {
    var parent := ParentOf(a[i].path, a[i].isDir);
    if parent != p {
      var j: nat :| j < i && a[j].isDir && a[j].path == parent;
      assert (a + b)[j] == a[j];
    }
  }

  lemma HasParentBehind(a: seq<PathContent>, b: seq<PathContent>, i: nat, p: string)
    requires i < |b| && HasParent(b, i, p)
    ensures HasParent(a + b, |a| + i, p)
  {
    var parent := ParentOf(b[i].path, b[i].isDir);
    if parent != p {
      var j: nat :| j < i && b[j].isDir && b[j].path == parent;
      assert (a + b)[|a| + j] == b[j];
    }
  }

  /** What lies in a directory is covered by the entry of that directory. */
  lemma CoveredByHead(e: PathContent, es: seq<PathContent>, p: string)
    requires e.isDir && Covered(es, e.path) && ParentOf(e.path, true) == p
    ensures Covered([e] + es, p)
  {
    var all := [e] + es;
    forall i: nat | i < |all| ensures HasParent(all, i, p) {
      if i > 0 {
        HasParentBehind([e], es, i - 1, e.path);
        assert HasParent(all, i, e.path) && all[0] == e;
      }
    }
  }

  lemma {:induction false} FilesCovered(files: seq<File>, path: string)
    requires EndsWithName(path) && forall f | f in files :: PlainName(f.name)
    ensures Covered(FileEntries(files, path), path + "/")
  {
    if files != [] {
      FilesCovered(files[1..], path);
      JoinPlain(path, files[0].name);
      ParentOfChild(path, files[0].name);
      CoveredAppend([FileEntry(files[0], path)], FileEntries(files[1..], path), path + "/");
    }
  }

  /** Everything behind the first entry is covered by it. */
  lemma {:induction false} ContentCovered(d: Directory, path: string)
    requires WellFilled(d) && EndsWithName(path)
    ensures Covered(FileEntries(d.files, path) + FlattenAll(d.directories, path), path + "/")
    decreases d, 1
  {
    FilesCovered(d.files, path);
    SubdirectoriesCovered(d.directories, path);
    CoveredAppend(FileEntries(d.files, path), FlattenAll(d.directories, path), path + "/");
  }

  lemma FlattenIsHeadAndContent(d: Directory, path: string)
    ensures Flatten(d, path) == [DirEntry(path)] + (FileEntries(d.files, path) + FlattenAll(d.directories, path))
  {
  }

  lemma {:induction false} SubdirectoriesCovered(ds: seq<Directory>, path: string)
    requires EndsWithName(path) && forall s | s in ds :: WellNamed(s)
    ensures Covered(FlattenAll(ds, path), path + "/")
    decreases ds, 0
  {
    if ds != [] {
      assert ds[0] in ds;
      var q := path + "/" + ds[0].name;
      JoinPlain(path, ds[0].name);
      ParentOfChild(path, ds[0].name);
      ContentCovered(ds[0], q);
      FlattenIsHeadAndContent(ds[0], q);
      CoveredByHead(DirEntry(q), FileEntries(ds[0].files, q) + FlattenAll(ds[0].directories, q), path + "/");
      SubdirectoriesCovered(ds[1..], path);
      CoveredAppend(Flatten(ds[0], q), FlattenAll(ds[1..], path), path + "/");
    }
  }

  /** The parent directory of every entry but the first is listed strictly before it. */
  lemma ParentsComeFirst(d: Directory, i: nat)
    requires WellFilled(d) && EndsWithName(d.name) && 0 < i < |Flatten(d, d.name)|
    ensures var es := Flatten(d, d.name);
      exists j: nat | j < i :: es[j].isDir && es[j].path == ParentOf(es[i].path, es[i].isDir)
  {
    var es, content := Flatten(d, d.name), FileEntries(d.files, d.name) + FlattenAll(d.directories, d.name);
    ContentCovered(d, d.name);
    FlattenIsHeadAndContent(d, d.name);
    assert HasParent(content, i - 1, d.name + "/");
    HasParentBehind([DirEntry(d.name)], content, i - 1, d.name + "/");
    assert es[0] == DirEntry(d.name);
  }

  /** A separator in the name of a file hides its directory: nothing in the listing is its parent. */
  lemma SeparatorHidesParent(p: string, n: string, m: string, content: string, j: nat)
    requires EndsWithName(p) && PlainName(n) && PlainName(m)
    ensures
      var es := Flatten(Directory(p, [File(n + "/" + m, content, false)], []), p);
      |es| == 2 && (j < 2 ==> es[j].path != ParentOf(es[1].path, false))
  {
    var f := File(n + "/" + m, content, false);
    assert n[0] in n;
    assert Join(p, f.name) == p + "/" + n + "/" + m;
    ParentOfChild(p + "/" + n, m);
    assert FileEntries([f], p) == [FileEntry(f, p)];
    assert Flatten(Directory(p, [f], []), p) == [DirEntry(p), FileEntry(f, p)];
  }

  // ---- Paths do not repeat

  predicate NoRepeat(es: seq<PathContent>) {
    forall i, j | 0 <= i < j < |es| :: es[i].path != es[j].path
  }

  predicate Apart(a: seq<PathContent>, b: seq<PathContent>) {
    forall x, y | x in a && y in b :: x.path != y.path
  }

  lemma NoRepeatAppend(a: seq<PathContent>, b: seq<PathContent>)
    ensures NoRepeat(a + b) <==> NoRepeat(a) && NoRepeat(b) && Apart(a, b)
  {
    var c := a + b;
    if NoRepeat(c) {
      forall i, j | 0 <= i < j < |a| ensures a[i].path != a[j].path {
        assert c[i] == a[i] && c[j] == a[j];
      }
      forall i, j | 0 <= i < j < |b| ensures b[i].path != b[j].path {
        assert c[|a| + i] == b[i] && c[|a| + j] == b[j];
      }
      forall x, y | x in a && y in b ensures x.path != y.path {
        var i :| 0 <= i < |a| && a[i] == x;
        var j :| 0 <= j < |b| && b[j] == y;
        assert c[i] == x && c[|a| + j] == y;
      }
    }
    if NoRepeat(a) && NoRepeat(b) && Apart(a, b) {
      forall i, j | 0 <= i < j < |c| ensures c[i].path != c[j].path {
        if i < |a| <= j {
          assert a[i] in a && b[j - |a|] in b;
        }
      }
    }
  }

  predicate FileNamesDiffer(files: seq<File>) {
    forall i, j | 0 <= i < j < |files| :: files[i].name != files[j].name
  }

  predicate DirNamesDiffer(ds: seq<Directory>) {
    forall i, j | 0 <= i < j < |ds| :: ds[i].name != ds[j].name
  }

  /** Nowhere in the tree do two files, or two directories, share a directory and a name. */
  predicate SiblingsDiffer(d: Directory) {
    FileNamesDiffer(d.files) && DirNamesDiffer(d.directories) && forall s | s in d.directories :: SiblingsDiffer(s)
  }

  /** What an entry in the directory `path` says behind the path of that directory. */
  function Tail(e: PathContent, path: string): string {
    if path + "/" <= e.path then e.path[|path| + 1..] else ""
  }

  lemma TailOf(e: PathContent, path: string, t: string)
    requires e.path == path + "/" + t
    ensures Tail(e, path) == t
  {
  }

  lemma {:induction false} FileTails(files: seq<File>, path: string)
    requires EndsWithName(path) && forall f | f in files :: PlainName(f.name)
    ensures |FileEntries(files, path)| == |files|
    ensures forall i | 0 <= i < |files| :: FileEntries(files, path)[i].path == path + "/" + files[i].name
    ensures forall i | 0 <= i < |files| :: Tail(FileEntries(files, path)[i], path) == files[i].name
  {
    if files != [] {
      FileTails(files[1..], path);
      JoinPlain(path, files[0].name);
      TailOf(FileEntry(files[0], path), path, files[0].name);
    }
  }

  /** The entry lies in the subdirectory `n` of `path`, or is its entry. */
  predicate Within(e: PathContent, path: string, n: string) {
    path + "/" + n + "/" <= e.path
  }

  lemma WithinTail(e: PathContent, path: string, n: string)
    requires Within(e, path, n)
    ensures n + "/" <= Tail(e, path)
  {
  }

  /** An entry lies in one subdirectory only. */
  lemma WithinOne(e: PathContent, path: string, n: string, m: string)
    requires PlainName(n) && PlainName(m) && Within(e, path, n) && Within(e, path, m)
    ensures n == m
  {
    WithinTail(e, path, n);
    WithinTail(e, path, m);
    var t := Tail(e, path);
    assert t[|n|] == '/' && t[|m|] == '/';
    assert forall i | 0 <= i < |n| :: t[i] == n[i] && n[i] in n;
    assert forall i | 0 <= i < |m| :: t[i] == m[i] && m[i] in m;
  }

  predicate AllWithin(es: seq<PathContent>, path: string, n: string) {
    forall e | e in es :: Within(e, path, n)
  }

  /** Every entry lies in one of the subdirectories. */
  predicate Spread(es: seq<PathContent>, path: string, ds: seq<Directory>) {
    forall e | e in es :: exists s | s in ds :: Within(e, path, s.name)
  }

  lemma WithinShorter(e: PathContent, path: string, n: string, m: string)
    requires Within(e, path + "/" + n, m)
    ensures Within(e, path, n)
  {
  }

  lemma FileWithin(e: PathContent, path: string, n: string, m: string)
    requires e.path == path + "/" + n + "/" + m
    ensures Within(e, path, n)
  {
  }

  lemma {:induction false} FlattenWithin(d: Directory, path: string, n: string)
    requires WellFilled(d) && EndsWithName(path + "/" + n)
    ensures AllWithin(Flatten(d, path + "/" + n), path, n)
    decreases d, 1
  {
    var q := path + "/" + n;
    FileTails(d.files, q);
    FlattenSpread(d.directories, q);
    var fs, all := FileEntries(d.files, q), FlattenAll(d.directories, q);
    forall e | e in Flatten(d, q) ensures Within(e, path, n) {
      if e in fs {
        var i :| 0 <= i < |fs| && fs[i] == e;
        FileWithin(e, path, n, d.files[i].name);
      } else if e in all {
        var s :| s in d.directories && Within(e, q, s.name);
        WithinShorter(e, path, n, s.name);
      }
    }
  }

  lemma {:induction false} FlattenSpread(ds: seq<Directory>, path: string)
    requires EndsWithName(path) && forall s | s in ds :: WellNamed(s)
    ensures Spread(FlattenAll(ds, path), path, ds)
    decreases ds, 0
  {
    if ds != [] {
      assert ds[0] in ds;
      JoinPlain(path, ds[0].name);
      FlattenWithin(ds[0], path, ds[0].name);
      FlattenSpread(ds[1..], path);
      forall e | e in FlattenAll(ds, path) ensures exists s | s in ds :: Within(e, path, s.name) {
        if e in FlattenAll(ds[1..], path) {
          var s :| s in ds[1..] && Within(e, path, s.name);
          assert s in ds;
        }
      }
    }
  }

  // The directory itself, its files and its subdirectories never clash with each other.

  lemma OwnEntriesApart(d: Directory, path: string)
    requires WellFilled(d) && EndsWithName(path)
    ensures Apart([DirEntry(path)], FileEntries(d.files, path))
    ensures Apart([DirEntry(path)] + FileEntries(d.files, path), FlattenAll(d.directories, path))
  {
    var fs, all := FileEntries(d.files, path), FlattenAll(d.directories, path);
    FileTails(d.files, path);
    TailOf(DirEntry(path), path, "");
    forall x, y | x in fs && y in all ensures x.path != y.path {
      FileIsApart(d, path, x, y);
    }
    forall y | y in all ensures y.path != path + "/" {
      DirectoryIsApart(d, path, y);
    }
  }

  lemma FileIsApart(d: Directory, path: string, x: PathContent, y: PathContent)
    requires WellFilled(d) && EndsWithName(path)
    requires x in FileEntries(d.files, path) && y in FlattenAll(d.directories, path)
    ensures x.path != y.path
  {
    var fs := FileEntries(d.files, path);
    FileTails(d.files, path);
    FlattenSpread(d.directories, path);
    var i :| 0 <= i < |fs| && fs[i] == x;
    var s :| s in d.directories && Within(y, path, s.name);
    WithinTail(y, path, s.name);
    assert Tail(y, path)[|s.name|] == '/';
    assert PlainName(d.files[i].name);
    assert Tail(x, path) != Tail(y, path);
  }

  lemma DirectoryIsApart(d: Directory, path: string, y: PathContent)
    requires WellFilled(d) && EndsWithName(path) && y in FlattenAll(d.directories, path)
    ensures y.path != path + "/"
  {
    FlattenSpread(d.directories, path);
    var s :| s in d.directories && Within(y, path, s.name);
  }

  lemma FilesRepeat(files: seq<File>, path: string)
    requires EndsWithName(path) && forall f | f in files :: PlainName(f.name)
    ensures NoRepeat(FileEntries(files, path)) <==> FileNamesDiffer(files)
  {
    var fs := FileEntries(files, path);
    FileTails(files, path);
    assert forall i | 0 <= i < |files| ::
        fs[i].path == path + "/" + files[i].name && Tail(fs[i], path) == files[i].name;
  }

  lemma {:induction false} HeadIsListed(ds: seq<Directory>, path: string, j: nat)
    requires j < |ds|
    ensures DirEntry(Join(path, ds[j].name)) in FlattenAll(ds, path)
  {
    if j > 0 {
      HeadIsListed(ds[1..], path, j - 1);
    }
  }

  /** The listing of the first subdirectory clashes with the others exactly if one of them has its name. */
  lemma FirstSubdirectoryApart(ds: seq<Directory>, path: string)
    requires ds != [] && EndsWithName(path) && forall s | s in ds :: WellNamed(s)
    ensures Apart(Flatten(ds[0], Join(path, ds[0].name)), FlattenAll(ds[1..], path))
      <==> (forall j | 1 <= j < |ds| :: ds[0].name != ds[j].name)
  {
    var n := ds[0].name;
    var a, b := Flatten(ds[0], Join(path, n)), FlattenAll(ds[1..], path);
    assert ds[0] in ds;
    JoinPlain(path, n);
    FlattenWithin(ds[0], path, n);
    FlattenSpread(ds[1..], path);
    if Apart(a, b) {
      forall j | 1 <= j < |ds| ensures n != ds[j].name {
        HeadIsListed(ds[1..], path, j - 1);
        assert DirEntry(Join(path, n)) in a;
      }
    }
    if forall j | 1 <= j < |ds| :: n != ds[j].name {
      forall x, y | x in a && y in b ensures x.path != y.path {
        var s :| s in ds[1..] && Within(y, path, s.name);
        assert WellNamed(s) && Within(x, path, n);
        if x.path == y.path {
          WithinOne(x, path, n, s.name);
        }
      }
    }
  }

  lemma {:induction false} SubdirectoriesRepeat(ds: seq<Directory>, path: string)
    requires EndsWithName(path) && forall s | s in ds :: WellNamed(s)
    ensures NoRepeat(FlattenAll(ds, path)) <==> DirNamesDiffer(ds) && forall s | s in ds :: SiblingsDiffer(s)
    decreases ds, 0
  {
    if ds != [] {
      assert ds[0] in ds && ds == [ds[0]] + ds[1..];
      JoinPlain(path, ds[0].name);
      NoRepeatAppend(Flatten(ds[0], Join(path, ds[0].name)), FlattenAll(ds[1..], path));
      FirstSubdirectoryApart(ds, path);
      FlattenRepeats(ds[0], Join(path, ds[0].name));
      SubdirectoriesRepeat(ds[1..], path);
      DirNamesDifferHead(ds);
    }
  }

  lemma DirNamesDifferHead(ds: seq<Directory>)
    requires ds != []
    ensures DirNamesDiffer(ds) <==> DirNamesDiffer(ds[1..]) && forall j | 1 <= j < |ds| :: ds[0].name != ds[j].name
  {
  }

  lemma {:induction false} FlattenRepeats(d: Directory, path: string)
    requires WellFilled(d) && EndsWithName(path)
    ensures NoRepeat(Flatten(d, path)) <==> SiblingsDiffer(d)
    decreases d, 1
  {
    var fs, all := FileEntries(d.files, path), FlattenAll(d.directories, path);
    OwnEntriesApart(d, path);
    NoRepeatAppend([DirEntry(path)] + fs, all);
    NoRepeatAppend([DirEntry(path)], fs);
    FilesRepeat(d.files, path);
    SubdirectoriesRepeat(d.directories, path);
  }

  /** The paths of a listing are pairwise distinct exactly if siblings of a kind have distinct names. */
  lemma PathsAreDistinct(d: Directory)
    requires WellFilled(d) && EndsWithName(d.name)
    ensures NoRepeat(Flatten(d, d.name)) <==> SiblingsDiffer(d)
  {
    FlattenRepeats(d, d.name);
  }

  // ---- Directories are entries without content

  predicate Bare(es: seq<PathContent>) {
    forall e | e in es && e.isDir :: e.content == "" && !e.isMain && !EndsWithName(e.path)
  }

  /** The entry of every directory has no content, is not marked as main, and its path ends with a separator. */
  lemma {:induction false} DirectoriesAreBare(d: Directory, path: string)
    ensures Bare(Flatten(d, path))
    decreases d, 1
  {
    FileEntriesAreFiles(d.files, path);
    SubdirectoriesAreBare(d.directories, path);
  }

  lemma {:induction false} SubdirectoriesAreBare(ds: seq<Directory>, path: string)
    ensures Bare(FlattenAll(ds, path))
    decreases ds, 0
  {
    if ds != [] {
      DirectoriesAreBare(ds[0], Join(path, ds[0].name));
      SubdirectoriesAreBare(ds[1..], path);
    }
  }

  // ---- Nothing is added, nothing is left out

  function Directories(d: Directory): nat
    decreases d, 1
  {
    1 + DirectoriesAll(d.directories)
  }

  function DirectoriesAll(ds: seq<Directory>): nat
    decreases ds, 0
  {
    if ds == [] then 0 else Directories(ds[0]) + DirectoriesAll(ds[1..])
  }

  function Files(d: Directory): nat
    decreases d, 1
  {
    |d.files| + FilesAll(d.directories)
  }

  function FilesAll(ds: seq<Directory>): nat
    decreases ds, 0
  {
    if ds == [] then 0 else Files(ds[0]) + FilesAll(ds[1..])
  }

  lemma {:induction false} FileEntriesCount(files: seq<File>, path: string)
    ensures |FileEntries(files, path)| == |files|
  {
    if files != [] {
      FileEntriesCount(files[1..], path);
    }
  }

  /** There is one entry for each directory and each file of the tree. */
  lemma {:induction false} EntryCount(d: Directory, path: string)
    ensures |Flatten(d, path)| == Directories(d) + Files(d)
    decreases d, 1
  {
    FileEntriesCount(d.files, path);
    EntryCountAll(d.directories, path);
  }

  lemma {:induction false} EntryCountAll(ds: seq<Directory>, path: string)
    ensures |FlattenAll(ds, path)| == DirectoriesAll(ds) + FilesAll(ds)
    decreases ds, 0
  {
    if ds != [] {
      EntryCount(ds[0], Join(path, ds[0].name));
      EntryCountAll(ds[1..], path);
    }
  }
}
