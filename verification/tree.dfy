/**
 The tree builder: the walk that produces the `FileDir` records the JSON and
 YAML outputs are serialised from (`toFileDir` in filelister.go).
 */
module FileTree {
  import opened FileSystem

  /** One filesystem entry, with the entries below it when the walk descended into it. */
  datatype FileDir = FileDir(
    modifiedTime: Time,
    isLink: bool,
    isDir: bool,
    linksTo: string,
    size: int64,
    name: string,
    children: seq<FileDir>)

  /**
   `n` is the record the builder makes for entry `e` of directory `path`:
   the listing metadata copied unchanged, the link flag and target taken from
   the probe on `path + e.name` whatever `e.isDir` says, and no children
   unless the walk is recursive and the entry is a directory.
   */
  ghost predicate Describes(fs: FileSystem, path: string, recursive: bool, n: FileDir, e: Info)
  {
    && n.name == e.name
    && n.size == e.size
    && n.modifiedTime == e.modTime
    && n.isDir == e.isDir
    && n.isLink == Probe(fs, path + e.name).Some?
    && n.linksTo == Probe(fs, path + e.name).GetOr("")
    && (!(recursive && e.isDir) ==> n.children == [])
  }

  /**
   The records for the entries of directory `path`, one per listed entry and
   in listing order; the empty sequence when `path` cannot be listed.
   */
  function ToFileDir(fs: FileSystem, path: string, recursive: bool): (r: seq<FileDir>)
    ensures List(fs, path).None? ==> r == []
    ensures List(fs, path).Some? ==>
      && |r| == |List(fs, path).value|
      && forall i :: 0 <= i < |r| ==> Describes(fs, path, recursive, r[i], List(fs, path).value[i])
    decreases Pending(fs, path), 1, 0
  {
    match List(fs, path)
    case None => []
    case Some(entries) => Nodes(fs, path, recursive, entries)
  }

  /** The records for `entries`, a tail of the listing of the listable directory `path`. */
  function Nodes(fs: FileSystem, path: string, recursive: bool, entries: seq<Info>): (r: seq<FileDir>)
    requires path in fs.dirs
    ensures |r| == |entries|
    ensures forall i :: 0 <= i < |r| ==> Describes(fs, path, recursive, r[i], entries[i])
    decreases Pending(fs, path), 0, |entries|
  {
    if entries == [] then []
    else [Node(fs, path, recursive, entries[0])] + Nodes(fs, path, recursive, entries[1..])
  }

  /** The record for entry `e` of the listable directory `path`. */
  function Node(fs: FileSystem, path: string, recursive: bool, e: Info): (n: FileDir)
    requires path in fs.dirs
    ensures Describes(fs, path, recursive, n, e)
    decreases Pending(fs, path), 0, 0
  {
    var target := Probe(fs, path + e.name);
    var children :=
      if recursive && e.isDir then
        DescentShrinksPending(fs, path, e.name);
        ToFileDir(fs, SubPath(path, e.name), recursive)
      else [];
    FileDir(e.modTime, target.Some?, e.isDir, target.GetOr(""), e.size, e.name, children)
  }

  lemma {:induction false} NodesAt(fs: FileSystem, path: string, recursive: bool, entries: seq<Info>, i: nat)
    requires path in fs.dirs
    requires i < |entries|
    ensures Nodes(fs, path, recursive, entries)[i] == Node(fs, path, recursive, entries[i])
    decreases i
  {
    assert Nodes(fs, path, recursive, entries)
        == [Node(fs, path, recursive, entries[0])] + Nodes(fs, path, recursive, entries[1..]);
    if i > 0 {
      assert entries[1..][i - 1] == entries[i];
      NodesAt(fs, path, recursive, entries[1..], i - 1);
    }
  }

  /**
   When the walk is recursive, the children of a directory entry are exactly
   what the builder returns for that directory's own path `path + name + "/"`.
   */
  lemma ChildrenOfDirectory(fs: FileSystem, path: string, recursive: bool, i: nat)
    requires List(fs, path).Some?
    requires i < |List(fs, path).value|
    requires recursive && List(fs, path).value[i].isDir
    ensures ToFileDir(fs, path, recursive)[i].children
         == ToFileDir(fs, SubPath(path, List(fs, path).value[i].name), recursive)
  {
    NodesAt(fs, path, recursive, List(fs, path).value, i);
  }

  /**
   Every node at every depth of `nodes` has children only if it is a directory
   and the walk was recursive.
   */
  ghost predicate ChildrenOnlyUnderDirs(nodes: seq<FileDir>, recursive: bool)
    decreases nodes
  {
    forall i :: 0 <= i < |nodes| ==>
      && (nodes[i].children != [] ==> recursive && nodes[i].isDir)
      && ChildrenOnlyUnderDirs(nodes[i].children, recursive)
  }

  lemma {:induction false} ToFileDirShape(fs: FileSystem, path: string, recursive: bool)
    ensures ChildrenOnlyUnderDirs(ToFileDir(fs, path, recursive), recursive)
    decreases Pending(fs, path), 1
  {
    if List(fs, path).Some? {
      var entries := List(fs, path).value;
      var r := ToFileDir(fs, path, recursive);
      forall i | 0 <= i < |r|
        ensures ChildrenOnlyUnderDirs(r[i].children, recursive)
      {
        if recursive && entries[i].isDir {
          ChildrenOfDirectory(fs, path, recursive, i);
          DescentShrinksPending(fs, path, entries[i].name);
          ToFileDirShape(fs, SubPath(path, entries[i].name), recursive);
        }
      }
    }
  }

  /** The number of records in `nodes`, counting every depth. */
  function Size(nodes: seq<FileDir>): nat
    decreases nodes
  {
    if nodes == [] then 0 else 1 + Size(nodes[0].children) + Size(nodes[1..])
  }
}
