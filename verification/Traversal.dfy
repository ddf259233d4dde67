/** From the parsed JSON document of a project to its directory tree. */
module Traversal {
  import opened Wrappers
  import opened Project

  /** A JSON object; of its members, those the traversal looks at. */
  datatype Node = Node(name: Option<string>, contents: Option<string>, isMain: bool, children: Children)

  datatype Children = NoChildren | NotAnArray | Array(nodes: seq<Node>)

  /** `r` is the longest prefix of a JSON string without NUL. */
  predicate Kept(s: string, r: string) {
    r <= s && '\0' !in r && (r == s || s[|r|] == '\0')
  }

  predicate KeptName(name: Option<string>, r: string) {
    if name.Some? then Kept(name.value, r) else r == ""
  }

  /** What is left of the contents of a file, or a line feed where nothing is. */
  predicate KeptContents(contents: string, r: string) {
    if contents == "" || contents[0] == '\0' then r == "\n" else Kept(contents, r)
  }

  /** What a C string keeps of a JSON string: all in front of the first NUL. */
  function CString(s: string): (r: string)
    ensures Kept(s, r)
  {
    if s == "" || s[0] == '\0' then "" else [s[0]] + CString(s[1..])
  }

  predicate IsFile(n: Node) {
    n.contents.Some?
  }

  predicate IsDirectory(n: Node) {
    !n.children.NoChildren?
  }

  function NameOf(n: Node): (r: string)
    ensures KeptName(n.name, r)
  {
    if n.name.Some? then CString(n.name.value) else ""
  }

  /** What the traversal descends into. */
  function ChildrenOf(n: Node): (r: seq<Node>)
    ensures forall c | c in r :: c < n
  {
    if n.name.Some? && n.children.Array? then n.children.nodes else []
  }

  /** Files are named: the traversal asserts that of every file it meets. */
  predicate FilesAreNamed(n: Node) {
    forall c | c in ChildrenOf(n) :: if IsFile(c) then c.name.Some? else FilesAreNamed(c)
  }

  function FileFrom(n: Node): (f: File)
    requires IsFile(n)
    ensures KeptName(n.name, f.name) && KeptContents(n.contents.value, f.content) && f.isMain == n.isMain
  {
    var content := CString(n.contents.value);
    File(NameOf(n), if content == "" then "\n" else content, n.isMain)
  }

  function FilesFrom(nodes: seq<Node>): seq<File> {
    if nodes == [] then [] else FileIn(nodes[0]) + FilesFrom(nodes[1..])
  }

  /** What one child adds to the files of its parent. */
  function FileIn(n: Node): seq<File> {
    if IsFile(n) then [FileFrom(n)] else []
  }

  function DirectoriesFrom(nodes: seq<Node>): seq<Directory>
    decreases nodes, 0
  {
    if nodes == [] then [] else DirectoryIn(nodes[0]) + DirectoriesFrom(nodes[1..])
  }

  /** What one child adds to the subdirectories of its parent: having contents, it is a file whatever else it has. */
  function DirectoryIn(n: Node): seq<Directory>
    decreases n, 2
  {
    if !IsFile(n) && IsDirectory(n) then [DirectoryFrom(n)] else []
  }

  function DirectoryFrom(n: Node): Directory
    decreases n, 1
  {
    if n.name.Some? && n.children.Array? then
      Directory(NameOf(n), FilesFrom(n.children.nodes), DirectoriesFrom(n.children.nodes))
    else Directory(NameOf(n), [], [])
  }

  lemma FilesFromLast(nodes: seq<Node>, n: Node)
    ensures FilesFrom(nodes + [n]) == FilesFrom(nodes) + FileIn(n)
  {
    if nodes == [] {
      assert nodes + [n] == [n];
    } else {
      assert (nodes + [n])[1..] == nodes[1..] + [n];
      FilesFromLast(nodes[1..], n);
    }
  }

  lemma DirectoriesFromLast(nodes: seq<Node>, n: Node)
    ensures DirectoriesFrom(nodes + [n]) == DirectoriesFrom(nodes) + DirectoryIn(n)
  {
    if nodes == [] {
      assert nodes + [n] == [n];
    } else {
      assert (nodes + [n])[1..] == nodes[1..] + [n];
      DirectoriesFromLast(nodes[1..], n);
    }
  }

  lemma FromNext(nodes: seq<Node>, i: nat)
    requires i < |nodes|
    ensures FilesFrom(nodes[..i + 1]) == FilesFrom(nodes[..i]) + FileIn(nodes[i])
    ensures DirectoriesFrom(nodes[..i + 1]) == DirectoriesFrom(nodes[..i]) + DirectoryIn(nodes[i])
  {
    assert nodes[..i + 1] == nodes[..i] + [nodes[i]];
    FilesFromLast(nodes[..i], nodes[i]);
    DirectoriesFromLast(nodes[..i], nodes[i]);
  }

  /** The body of the loop for a file. */
  method MakeFile(child: Node) returns (file: File)
    requires IsFile(child) && child.name.Some?
    ensures file == FileFrom(child)
    ensures Kept(child.name.value, file.name) && KeptContents(child.contents.value, file.content)
    ensures file.isMain == child.isMain
  {
    var content := CString(child.contents.value);
    file := File(CString(child.name.value), if content == "" then "\n" else content, false);
    if child.isMain {
      file := file.(isMain := true);
    }
  }

  method RecursiveDirectoryTraverse(document: Node) returns (directory: Directory)
    requires FilesAreNamed(document)
    ensures directory == DirectoryFrom(document)
  {
    if document.name.None? {
      return Directory("", [], []);
    }
    var files, directories := [], [];
    if document.children.Array? {
      var children := document.children.nodes;
      for i := 0 to |children|
        invariant files == FilesFrom(children[..i])
        invariant directories == DirectoriesFrom(children[..i])
      {
        assert children[i] in ChildrenOf(document);
        FromNext(children, i);
        if IsFile(children[i]) {
          var file := MakeFile(children[i]);
          files := files + [file];
          continue;
        }
        if IsDirectory(children[i]) {
          var subDirectory := RecursiveDirectoryTraverse(children[i]);
          directories := directories + [subDirectory];
        }
      }
      assert children[..|children|] == children;
    }
    directory := Directory(CString(document.name.value), files, directories);
  }

  /** No file of the project is empty: an archive could not hold it. */
  predicate NoEmptyFile(d: Directory) {
    (forall f | f in d.files :: f.content != "") && forall s | s in d.directories :: NoEmptyFile(s)
  }

  lemma {:induction false} FilesAreNotEmpty(n: Node)
    ensures NoEmptyFile(DirectoryFrom(n))
    decreases n, 1
  {
    if n.name.Some? && n.children.Array? {
      ContentIsNotEmpty(n.children.nodes);
    }
  }

  lemma {:induction false} ContentIsNotEmpty(nodes: seq<Node>)
    ensures forall f | f in FilesFrom(nodes) :: f.content != ""
    ensures forall s | s in DirectoriesFrom(nodes) :: NoEmptyFile(s)
    decreases nodes, 0
  {
    if nodes != [] {
      ContentIsNotEmpty(nodes[1..]);
      FilesAreNotEmpty(nodes[0]);
    }
  }
}
