/**
 How the two walkers relate. The text renderer walks the filesystem on its
 own instead of printing the tree the builder produces; this module defines
 the text a tree would print and shows that, as long as every directory the
 walk reaches can be listed, the two agree line for line. Where a nested
 listing fails they part ways: the tree just has no children there, while the
 text carries an error line in their place.
 */
module Agreement {
  import opened FileSystem
  import opened FileTree
  import opened TextListing

  /**
   The text a tree of records prints: each node's line, with the marker the
   text renderer would choose from the node's own `isDir` and `isLink`,
   followed by the lines of its children one tab deeper.
   */
  function RenderTree(nodes: seq<FileDir>, padding: string): seq<string>
    decreases nodes
  {
    if nodes == [] then []
    else
      [EntryLine(padding, nodes[0].name, nodes[0].isDir, nodes[0].isLink)]
      + RenderTree(nodes[0].children, padding + "\t")
      + RenderTree(nodes[1..], padding)
  }

  /** Every directory that the walk from `path` lists, `path` included, can be listed. */
  ghost predicate WalkSucceeds(fs: FileSystem, path: string, recursive: bool)
    decreases Pending(fs, path)
  {
    match List(fs, path)
    case None => false
    case Some(entries) =>
      forall i :: 0 <= i < |entries| && recursive && entries[i].isDir ==>
        (DescentShrinksPending(fs, path, entries[i].name);
         WalkSucceeds(fs, SubPath(path, entries[i].name), recursive))
  }

  lemma {:induction false} RenderTreeSize(nodes: seq<FileDir>, padding: string)
    ensures |RenderTree(nodes, padding)| == Size(nodes)
    decreases nodes
  {
    if nodes != [] {
      RenderTreeSize(nodes[0].children, padding + "\t");
      RenderTreeSize(nodes[1..], padding);
    }
  }

  /**
   When every directory reached can be listed, the text renderer prints
   exactly the lines of the tree the builder returns for the same path.
   */
  lemma {:induction false} TextMatchesTree(fs: FileSystem, path: string, recursive: bool, padding: string)
    requires WalkSucceeds(fs, path, recursive)
    ensures ToText(fs, path, recursive, padding) == RenderTree(ToFileDir(fs, path, recursive), padding)
    decreases Pending(fs, path), 1, 0
  {
    var entries := List(fs, path).value;
    LinesMatchNodes(fs, path, recursive, padding, entries);
  }

  lemma {:induction false} LinesMatchNodes(fs: FileSystem, path: string, recursive: bool, padding: string, entries: seq<Info>)
    requires path in fs.dirs
    requires forall i :: 0 <= i < |entries| && recursive && entries[i].isDir ==>
      WalkSucceeds(fs, SubPath(path, entries[i].name), recursive)
    ensures Lines(fs, path, recursive, padding, entries) == RenderTree(Nodes(fs, path, recursive, entries), padding)
    decreases Pending(fs, path), 0, |entries|
  {
    if entries != [] {
      var e := entries[0];
      var n := Node(fs, path, recursive, e);
      var rest := Nodes(fs, path, recursive, entries[1..]);
      assert Nodes(fs, path, recursive, entries) == [n] + rest;
      assert ([n] + rest)[0] == n;
      assert ([n] + rest)[1..] == rest;
      if recursive && e.isDir {
        DescentShrinksPending(fs, path, e.name);
        TextMatchesTree(fs, SubPath(path, e.name), recursive, padding + "\t");
      }
      assert EntryLines(fs, path, recursive, padding, e)
          == [EntryLine(padding, n.name, n.isDir, n.isLink)] + RenderTree(n.children, padding + "\t");
      LinesMatchNodes(fs, path, recursive, padding, entries[1..]);
    }
  }

  /**
   When every directory reached can be listed, the text has one line per
   record of the tree, counting every depth.
   */
  lemma TextLineCount(fs: FileSystem, path: string, recursive: bool, padding: string)
    requires WalkSucceeds(fs, path, recursive)
    ensures |ToText(fs, path, recursive, padding)| == Size(ToFileDir(fs, path, recursive))
  {
    TextMatchesTree(fs, path, recursive, padding);
    RenderTreeSize(ToFileDir(fs, path, recursive), padding);
  }

  /**
   A directory entry whose own listing fails, in a recursive walk: the tree
   records it with no children, and the text prints its line followed by the
   error line for its path, while every sibling keeps its lines.
   */
  lemma FailedSubdirectory(fs: FileSystem, path: string, recursive: bool, padding: string, i: nat)
    requires List(fs, path).Some?
    requires i < |List(fs, path).value|
    requires recursive && List(fs, path).value[i].isDir
    requires List(fs, SubPath(path, List(fs, path).value[i].name)).None?
    ensures ToFileDir(fs, path, recursive)[i].children == []
    ensures var entries := List(fs, path).value;
      var e := entries[i];
      ToText(fs, path, recursive, padding)
        == Lines(fs, path, recursive, padding, entries[..i])
           + [padding + e.name + "/", ErrorLine(SubPath(path, e.name))]
           + Lines(fs, path, recursive, padding, entries[i + 1..])
  {
    ChildrenOfDirectory(fs, path, recursive, i);
    EntryBlockAt(fs, path, recursive, padding, i);
  }
}
