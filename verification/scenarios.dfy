/**
 Small concrete filesystems and what each walker makes of them.
 */
module Scenarios {
  import opened FileSystem
  import opened FileTree
  import opened TextListing

  /** `/tmp/x/` holding file `a.txt` and directory `b/`, which holds file `c.txt`. */
  function NestedTree(t: Time): FileSystem
  {
    FileSystem(
      map[
        "/tmp/x/" := Some([Info("a.txt", 10, t, false), Info("b", 4096, t, true)]),
        "/tmp/x/b/" := Some([Info("c.txt", 5, t, false)])],
      map[])
  }

  /**
   `/r/` holding `link`, a symbolic link to `b` that the listing reports as a
   directory; listed through the link it holds file `f`.
   */
  function LinkedDirectory(t: Time): FileSystem
  {
    FileSystem(
      map["/r/" := Some([Info("link", 0, t, true)]), "/r/link/" := Some([Info("f", 1, t, false)])],
      map["/r/link" := "b"])
  }

  lemma NestedTreeRecords(t: Time)
    ensures ToFileDir(NestedTree(t), "/tmp/x/", true)
         == [FileDir(t, false, false, "", 10, "a.txt", []),
             FileDir(t, false, true, "", 4096, "b", [FileDir(t, false, false, "", 5, "c.txt", [])])]
  {
    var fs := NestedTree(t);
    assert SubPath("/tmp/x/", "b") == "/tmp/x/b/";
    assert List(fs, "/tmp/x/") == Some([Info("a.txt", 10, t, false), Info("b", 4096, t, true)]);
    assert List(fs, "/tmp/x/b/") == Some([Info("c.txt", 5, t, false)]);
    var sub := ToFileDir(fs, "/tmp/x/b/", true);
    assert sub == [FileDir(t, false, false, "", 5, "c.txt", [])];
    ChildrenOfDirectory(fs, "/tmp/x/", true, 1);
  }

  lemma NestedTreeText(t: Time)
    ensures ToText(NestedTree(t), "/tmp/x/", true, "\t") == ["\ta.txt", "\tb/", "\t\tc.txt"]
  {
    var fs := NestedTree(t);
    assert SubPath("/tmp/x/", "b") == "/tmp/x/b/";
    assert List(fs, "/tmp/x/") == Some([Info("a.txt", 10, t, false), Info("b", 4096, t, true)]);
    assert List(fs, "/tmp/x/b/") == Some([Info("c.txt", 5, t, false)]);
    assert "\t" + "\t" == "\t\t";
    assert EntryLine("\t\t", "c.txt", false, false) == "\t\tc.txt";
    EntryBlockAt(fs, "/tmp/x/b/", true, "\t\t", 0);
    assert ToText(fs, "/tmp/x/b/", true, "\t\t") == ["\t\tc.txt"];
    assert EntryLine("\t", "a.txt", false, false) == "\ta.txt";
    assert EntryLine("\t", "b", true, false) == "\tb/";
    EntryBlockAt(fs, "/tmp/x/", true, "\t", 1);
  }

  /**
   The link flag is set on a directory entry, yet its text line is marked `/`,
   not `*`; a recursive walk descends into it in both walkers.
   */
  lemma LinkedDirectoryViews(t: Time)
    ensures ToFileDir(LinkedDirectory(t), "/r/", false) == [FileDir(t, true, true, "b", 0, "link", [])]
    ensures ToText(LinkedDirectory(t), "/r/", false, "\t") == ["\tlink/"]
    ensures ToFileDir(LinkedDirectory(t), "/r/", true)
         == [FileDir(t, true, true, "b", 0, "link", [FileDir(t, false, false, "", 1, "f", [])])]
    ensures ToText(LinkedDirectory(t), "/r/", true, "\t") == ["\tlink/", "\t\tf"]
  {
    var fs := LinkedDirectory(t);
    assert "/r/" + "link" == "/r/link";
    assert SubPath("/r/", "link") == "/r/link/";
    assert List(fs, "/r/") == Some([Info("link", 0, t, true)]);
    assert List(fs, "/r/link/") == Some([Info("f", 1, t, false)]);
    assert Probe(fs, "/r/" + "link") == Some("b");
    assert Probe(fs, "/r/link/" + "f") == None;
    assert EntryLine("\t", "link", true, true) == "\tlink/";
    var sub := ToFileDir(fs, "/r/link/", true);
    assert sub == [FileDir(t, false, false, "", 1, "f", [])];
    ChildrenOfDirectory(fs, "/r/", true, 0);
    assert "\t" + "\t" == "\t\t";
    assert EntryLine("\t\t", "f", false, false) == "\t\tf";
    EntryBlockAt(fs, "/r/link/", true, "\t\t", 0);
    assert ToText(fs, "/r/link/", true, "\t\t") == ["\t\tf"];
    EntryBlockAt(fs, "/r/", true, "\t", 0);
  }
}
