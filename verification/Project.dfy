/** Projects: a tree of directories and its listing, as it goes into an archive. */
module Project {
  import opened Wrappers
  import opened Paths

  datatype File = File(name: string, content: string, isMain: bool)

  datatype Directory = Directory(name: string, files: seq<File>, directories: seq<Directory>)

  datatype PathContent = PathContent(path: string, content: string, isMain: bool, isDir: bool)

  function FileEntry(f: File, path: string): PathContent {
    PathContent(Join(path, f.name), f.content, f.isMain, false)
  }

  function FileEntries(files: seq<File>, path: string): seq<PathContent> {
    if files == [] then [] else [FileEntry(files[0], path)] + FileEntries(files[1..], path)
  }

  function DirEntry(path: string): PathContent {
    PathContent(path + "/", "", false, true)
  }

  /** The listing: a directory, then its files, then the listings of its subdirectories. */
  function Flatten(d: Directory, path: string): seq<PathContent>
    decreases d, 1
  {
    [DirEntry(path)] + FileEntries(d.files, path) + FlattenAll(d.directories, path)
  }

  function FlattenAll(ds: seq<Directory>, path: string): seq<PathContent>
    decreases ds, 0
  {
    if ds == [] then [] else Flatten(ds[0], Join(path, ds[0].name)) + FlattenAll(ds[1..], path)
  }

  lemma FileEntriesAreFiles(files: seq<File>, path: string)
    ensures forall e | e in FileEntries(files, path) :: !e.isDir
  {
  }

  lemma FileEntriesLast(files: seq<File>, f: File, path: string)
    ensures FileEntries(files + [f], path) == FileEntries(files, path) + [FileEntry(f, path)]
  {
    if files == [] {
      assert files + [f] == [f];
    } else {
      assert (files + [f])[1..] == files[1..] + [f];
      FileEntriesLast(files[1..], f, path);
    }
  }

  lemma FlattenAllLast(ds: seq<Directory>, d: Directory, path: string)
    ensures FlattenAll(ds + [d], path) == FlattenAll(ds, path) + Flatten(d, Join(path, d.name))
  {
    if ds == [] {
      assert ds + [d] == [d];
    } else {
      assert (ds + [d])[1..] == ds[1..] + [d];
      FlattenAllLast(ds[1..], d, path);
    }
  }

  lemma FlattenAllNext(ds: seq<Directory>, i: nat, path: string, before: seq<PathContent>)
    requires i < |ds|
    ensures before + FlattenAll(ds[..i + 1], path)
         == before + FlattenAll(ds[..i], path) + Flatten(ds[i], Join(path, ds[i].name))
  {
    FlattenAllLast(ds[..i], ds[i], path);
    assert ds[..i + 1] == ds[..i] + [ds[i]];
  }

  lemma FlattenBehind(d: Directory, path: string, before: seq<PathContent>)
    ensures before + [DirEntry(path)] + FileEntries(d.files, path) + FlattenAll(d.directories, path)
         == before + Flatten(d, path)
  {
  }

  /** The vector all levels of the recursion append to. */
  class PathList {
    var paths: seq<PathContent>

    constructor ()
      ensures paths == []
    {
      paths := [];
    }

    /** `push_back`, then the flags of the new last element are set. */
    method Add(path: string, content: string, isMain: bool, isDir: bool)
      modifies this
      ensures paths == old(paths) + [PathContent(path, content, isMain, isDir)]
    {
      paths := paths + [PathContent(path, content, false, false)];
      if isMain {
        paths := paths[|paths| - 1 := paths[|paths| - 1].(isMain := true)];
      }
      if isDir {
        paths := paths[|paths| - 1 := paths[|paths| - 1].(isDir := true)];
      }
    }

    method AddFiles(files: seq<File>, currentPath: string)
      modifies this
      ensures paths == old(paths) + FileEntries(files, currentPath)
    {
      for i := 0 to |files|
        invariant paths == old(paths) + FileEntries(files[..i], currentPath)
      {
        FileEntriesLast(files[..i], files[i], currentPath);
        assert files[..i + 1] == files[..i] + [files[i]];
        Add(Join(currentPath, files[i].name), files[i].content, files[i].isMain, false);
      }
      assert files[..|files|] == files;
    }

    method RecursiveFillAbsolutePaths(directory: Directory, currentPath: string)
      modifies this
      ensures paths == old(paths) + Flatten(directory, currentPath)
      decreases directory
    {
      Add(currentPath + "/", "", false, true);
      AddFiles(directory.files, currentPath);
      ghost var mid := paths;
      var ds := directory.directories;
      for i := 0 to |ds|
        invariant paths == mid + FlattenAll(ds[..i], currentPath)
      {
        FlattenAllNext(ds, i, currentPath, mid);
        RecursiveFillAbsolutePaths(ds[i], Join(currentPath, ds[i].name));
      }
      assert ds[..|ds|] == ds;
      FlattenBehind(directory, currentPath, old(paths));
    }
  }

  method GetPathsToFiles(root: Directory) returns (paths: seq<PathContent>)
    ensures paths == Flatten(root, root.name)
  {
    var list := new PathList();
    list.RecursiveFillAbsolutePaths(root, root.name);
    paths := list.paths;
  }

  /** All names in the tree are plain. */
  predicate WellNamed(d: Directory)
    decreases d, 1
  {
    PlainName(d.name) && WellFilled(d)
  }

  /** All names below the directory are plain. */
  predicate WellFilled(d: Directory)
    decreases d, 0
  {
    (forall f | f in d.files :: PlainName(f.name)) && forall s | s in d.directories :: WellNamed(s)
  }

  /** The files at the front of a listing. */
  function LeadingFiles(es: seq<PathContent>): (k: nat)
    ensures k <= |es|
  {
    if es != [] && !es[0].isDir then 1 + LeadingFiles(es[1..]) else 0
  }

  function FileOf(e: PathContent, path: string): File {
    File(if |path| < |e.path| then e.path[|path| + 1..] else "", e.content, e.isMain)
  }

  function FilesOf(es: seq<PathContent>, path: string): seq<File> {
    if es == [] then [] else [FileOf(es[0], path)] + FilesOf(es[1..], path)
  }

  /** The listing goes on with something strictly below `path`. */
  predicate Below(es: seq<PathContent>, path: string) {
    es != [] && es[0].isDir && |path| + 2 < |es[0].path| && path + "/" <= es[0].path
  }

  function NameBelow(e: PathContent, path: string): string
    requires Below([e], path)
  {
    e.path[|path| + 1..|e.path| - 1]
  }

  /** Reads one directory off the front of a listing, and the rest of the listing. */
  function ParseDir(es: seq<PathContent>, path: string, name: string): (r: (Directory, seq<PathContent>))
    requires es != []
    ensures |r.1| < |es|
    decreases |es|, 0
  {
    var k := LeadingFiles(es[1..]);
    var (ds, rest) := ParseDirs(es[1 + k..], path);
    (Directory(name, FilesOf(es[1..1 + k], path), ds), rest)
  }

  /** Reads directories off the front of a listing as long as they lie below `path`. */
  function ParseDirs(es: seq<PathContent>, path: string): (r: (seq<Directory>, seq<PathContent>))
    ensures |r.1| <= |es|
    decreases |es|, 1
  {
    if !Below(es, path) then ([], es)
    else
      var name := NameBelow(es[0], path);
      var (d, rest) := ParseDir(es, path + "/" + name, name);
      var (ds, rest') := ParseDirs(rest, path);
      ([d] + ds, rest')
  }

  /** The tree of a listing. */
  function Unflatten(es: seq<PathContent>): Option<Directory> {
    if es == [] || es[0].path == "" then None
    else
      var name := es[0].path[..|es[0].path| - 1];
      Some(ParseDir(es, name, name).0)
  }
}
