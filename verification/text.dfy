/**
 The text renderer: an independent walk of the same filesystem that prints
 one indented line per entry (`toText` in filelister.go). Each line printed
 is one element of the result.
 */
module TextListing {
  import opened FileSystem

  /** The line printed when directory `path` cannot be listed; it carries no indentation. */
  function ErrorLine(path: string): string
  {
    "Error reading directory: " + path
  }

  /**
   The line for one entry: its name after the indentation, marked `/` when it
   is a directory, else `*` when its link probe succeeded, else unmarked.
   */
  function EntryLine(padding: string, name: string, isDir: bool, isLink: bool): (line: string)
    ensures |padding + name| <= |line| <= |padding + name| + 1
    ensures line[..|padding + name|] == padding + name
    ensures isDir ==> line == padding + name + "/"
    ensures !isDir ==> (line == padding + name + "*" <==> isLink)
    ensures !isDir && !isLink ==> line == padding + name
  {
    padding + name + (if isDir then "/" else if isLink then "*" else "")
  }

  /**
   The lines for directory `path`: the error line alone when it cannot be
   listed, otherwise at least one line per entry; when the walk is not
   recursive, exactly the entry lines in listing order.
   */
  function ToText(fs: FileSystem, path: string, recursive: bool, padding: string): (r: seq<string>)
    ensures List(fs, path).None? ==> r == [ErrorLine(path)]
    ensures List(fs, path).Some? ==> |r| >= |List(fs, path).value|
    ensures List(fs, path).Some? && !recursive ==>
      && |r| == |List(fs, path).value|
      && forall i :: 0 <= i < |r| ==>
           var e := List(fs, path).value[i];
           r[i] == EntryLine(padding, e.name, e.isDir, Probe(fs, path + e.name).Some?)
    decreases Pending(fs, path), 1, 0
  {
    match List(fs, path)
    case None => [ErrorLine(path)]
    case Some(entries) => Lines(fs, path, recursive, padding, entries)
  }

  /** The lines for `entries`, a tail of the listing of the listable directory `path`. */
  function Lines(fs: FileSystem, path: string, recursive: bool, padding: string, entries: seq<Info>): (r: seq<string>)
    requires path in fs.dirs
    ensures |r| >= |entries|
    ensures !recursive ==>
      && |r| == |entries|
      && forall i :: 0 <= i < |r| ==>
           r[i] == EntryLine(padding, entries[i].name, entries[i].isDir, Probe(fs, path + entries[i].name).Some?)
    decreases Pending(fs, path), 0, |entries|
  {
    if entries == [] then []
    else EntryLines(fs, path, recursive, padding, entries[0]) + Lines(fs, path, recursive, padding, entries[1..])
  }

  /**
   The lines for entry `e` of the listable directory `path`: its own line,
   followed, for a directory in a recursive walk, by the lines of that
   directory one tab deeper.
   */
  function EntryLines(fs: FileSystem, path: string, recursive: bool, padding: string, e: Info): (r: seq<string>)
    requires path in fs.dirs
    ensures |r| >= 1
    ensures r[0] == EntryLine(padding, e.name, e.isDir, Probe(fs, path + e.name).Some?)
    ensures !(recursive && e.isDir) ==> |r| == 1
    decreases Pending(fs, path), 0, 0
  {
    var line := EntryLine(padding, e.name, e.isDir, Probe(fs, path + e.name).Some?);
    if recursive && e.isDir then
      DescentShrinksPending(fs, path, e.name);
      [line] + ToText(fs, SubPath(path, e.name), recursive, padding + "\t")
    else [line]
  }

  lemma {:induction false} LinesAppend(fs: FileSystem, path: string, recursive: bool, padding: string, a: seq<Info>, b: seq<Info>)
    requires path in fs.dirs
    ensures Lines(fs, path, recursive, padding, a + b)
         == Lines(fs, path, recursive, padding, a) + Lines(fs, path, recursive, padding, b)
    decreases |a|
  {
    if a == [] {
      assert a + b == b;
    } else {
      var first := EntryLines(fs, path, recursive, padding, a[0]);
      assert (a + b)[0] == a[0];
      assert (a + b)[1..] == a[1..] + b;
      assert Lines(fs, path, recursive, padding, a + b) == first + Lines(fs, path, recursive, padding, a[1..] + b);
      LinesAppend(fs, path, recursive, padding, a[1..], b);
      Associate(first, Lines(fs, path, recursive, padding, a[1..]), Lines(fs, path, recursive, padding, b));
    }
  }

  lemma LinesSplit(fs: FileSystem, path: string, recursive: bool, padding: string, entries: seq<Info>, i: nat)
    requires path in fs.dirs
    requires i < |entries|
    ensures Lines(fs, path, recursive, padding, entries)
         == Lines(fs, path, recursive, padding, entries[..i])
            + EntryLines(fs, path, recursive, padding, entries[i])
            + Lines(fs, path, recursive, padding, entries[i + 1..])
  {
    var tail := entries[i..];
    assert entries == entries[..i] + tail;
    LinesAppend(fs, path, recursive, padding, entries[..i], tail);
    assert tail != [] && tail[0] == entries[i] && tail[1..] == entries[i + 1..];
    assert Lines(fs, path, recursive, padding, tail)
        == EntryLines(fs, path, recursive, padding, entries[i]) + Lines(fs, path, recursive, padding, entries[i + 1..]);
    Associate(Lines(fs, path, recursive, padding, entries[..i]),
              EntryLines(fs, path, recursive, padding, entries[i]),
              Lines(fs, path, recursive, padding, entries[i + 1..]));
  }

  /** An entry's lines, unfolded: its own line, then what lies below it. */
  lemma EntryLinesShape(fs: FileSystem, path: string, recursive: bool, padding: string, e: Info)
    requires path in fs.dirs
    ensures EntryLines(fs, path, recursive, padding, e)
         == [EntryLine(padding, e.name, e.isDir, Probe(fs, path + e.name).Some?)]
            + (if recursive && e.isDir then ToText(fs, SubPath(path, e.name), recursive, padding + "\t") else [])
  {
  }

  /**
   Entry `i` of a listable directory contributes its own line, immediately
   followed, for a directory in a recursive walk, by the lines of that
   directory one tab deeper; the lines of the entries before it come first and
   those of the entries after it come last.
   */
  lemma EntryBlockAt(fs: FileSystem, path: string, recursive: bool, padding: string, i: nat)
    requires List(fs, path).Some?
    requires i < |List(fs, path).value|
    ensures var entries := List(fs, path).value;
      var e := entries[i];
      var own := EntryLine(padding, e.name, e.isDir, Probe(fs, path + e.name).Some?);
      var below := if recursive && e.isDir then ToText(fs, SubPath(path, e.name), recursive, padding + "\t") else [];
      ToText(fs, path, recursive, padding)
        == Lines(fs, path, recursive, padding, entries[..i]) + [own] + below
           + Lines(fs, path, recursive, padding, entries[i + 1..])
  {
    var entries := List(fs, path).value;
    var e := entries[i];
    var before := Lines(fs, path, recursive, padding, entries[..i]);
    var after := Lines(fs, path, recursive, padding, entries[i + 1..]);
    var own := EntryLine(padding, e.name, e.isDir, Probe(fs, path + e.name).Some?);
    var below := if recursive && e.isDir then ToText(fs, SubPath(path, e.name), recursive, padding + "\t") else [];
    assert ToText(fs, path, recursive, padding) == Lines(fs, path, recursive, padding, entries);
    LinesSplit(fs, path, recursive, padding, entries, i);
    EntryLinesShape(fs, path, recursive, padding, e);
    Regroup(before, own, below, after);
  }

  /** Regrouping a concatenation of three sequences. */
  lemma Associate<T>(a: seq<T>, b: seq<T>, c: seq<T>)
    ensures a + (b + c) == a + b + c
  {
  }

  /** Regrouping a concatenation with one single-element part. */
  lemma Regroup<T>(a: seq<T>, x: T, b: seq<T>, c: seq<T>)
    ensures a + ([x] + b) + c == a + [x] + b + c
  {
  }

  /**
   In text mode a directory entry's line is marked `/`, never `*`, whatever
   its link probe says, and it sits right after the lines of the entries
   listed before it.
   */
  lemma DirectoryBeatsLink(fs: FileSystem, path: string, recursive: bool, padding: string, i: nat)
    requires List(fs, path).Some?
    requires i < |List(fs, path).value|
    requires List(fs, path).value[i].isDir
    ensures var entries := List(fs, path).value;
      var k := |Lines(fs, path, recursive, padding, entries[..i])|;
      var r := ToText(fs, path, recursive, padding);
      k < |r| && r[k] == padding + entries[i].name + "/"
  {
    EntryBlockAt(fs, path, recursive, padding, i);
  }
}
