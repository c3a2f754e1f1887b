/**
 The abstract filesystem the lister walks.

 Listing a directory and probing a path for a symbolic link are the two
 operating-system calls the lister makes (`ioutil.ReadDir` and `os.Readlink`).
 Here both are finite maps: a directory path that is absent from `dirs`, or
 mapped to `None`, cannot be listed; a path that is a key of `links` is one
 for which the link probe succeeds, with the target as its value. Whether an
 entry is a directory and whether its probe succeeds are independent inputs.
 */
module FileSystem {

  datatype Option<+T> = None | Some(value: T) {

    /** The carried value, or `default` when there is none. */
    function GetOr(default: T): T {
      match this
      case Some(v) => v
      case None => default
    }
  }

  /** The signed 64-bit size field of a directory entry. */
  newtype int64 = x: int | -0x8000_0000_0000_0000 <= x < 0x8000_0000_0000_0000

  /** A modification timestamp. The lister only copies it, so its contents are never inspected. */
  datatype Time = Time(seconds: int, nanos: int)

  /** One entry of a directory listing: its base name and the metadata the listing reports. */
  datatype Info = Info(name: string, size: int64, modTime: Time, isDir: bool)

  datatype FileSystem = FileSystem(dirs: map<string, Option<seq<Info>>>, links: map<string, string>)

  /** The entries of directory `path`, in listing order, or `None` when listing fails. */
  function List(fs: FileSystem, path: string): (r: Option<seq<Info>>)
    ensures r.Some? ==> path in fs.dirs
  {
    if path in fs.dirs then fs.dirs[path] else None
  }

  /** The target of the symbolic link at `path`, or `None` when the probe fails. */
  function Probe(fs: FileSystem, path: string): (r: Option<string>)
    ensures r.Some? <==> path in fs.links
    ensures r.Some? ==> r.value == fs.links[path]
  {
    if path in fs.links then Some(fs.links[path]) else None
  }

  /** The path under which the entry `name` of directory `path` is listed when descending into it. */
  function SubPath(path: string, name: string): (r: string)
    ensures |r| > |path| && r[..|path|] == path && r[|r| - 1] == '/'
  {
    path + name + "/"
  }

  /**
   The keys of `dirs` at least as long as `path`. A walk only descends
   below a path it could list, and every descent makes the path strictly longer,
   so this set shrinks strictly along every descent: it is the termination
   measure of both walkers.
   */
  ghost function Pending(fs: FileSystem, path: string): set<string>
  {
    set k | k in fs.dirs && |k| >= |path|
  }

  lemma {:induction false} DescentShrinksPending(fs: FileSystem, path: string, name: string)
    requires path in fs.dirs
    ensures Pending(fs, SubPath(path, name)) < Pending(fs, path)
  {
    assert path in Pending(fs, path);
    assert path !in Pending(fs, SubPath(path, name));
  }
}
