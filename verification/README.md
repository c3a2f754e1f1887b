# filelister, modelled in Dafny

filelister lists a directory, optionally recursively, either as indented
text or as a tree of `FileDir` records that it then serialises as JSON or
YAML. This project models the two recursive walkers of `filelister.go` and
the pure checks `main` makes before walking:

- `FileTree.ToFileDir` is `toFileDir`. It builds one `FileDir` per listed entry.
  The listing metadata is copied, the link flag and target come from a probe
  on `path + name`, and the builder descends into `path + name + "/"` when
  the walk is recursive and the entry is a directory.
- `TextListing.ToText` is `toText`. It prints one line per entry, marked `/`
  for a directory, else `*` when the link probe succeeds, and descends the
  same way with one more tab of indentation.
- `Cli` holds the root-path normalisation (a `/` is appended) and the
  output-selector check (`text`, `json` or `yaml`).

The filesystem is an input (`FileSystem.FileSystem`). `dirs` maps a
directory path to its listing, or to `None` when `ioutil.ReadDir` fails; a
path missing from the map also fails to list. `links` maps a path to its
link target exactly when `os.Readlink` succeeds on it. Whether an entry is
a directory and whether its probe succeeds are independent inputs. The
source has no cycle guard. The walks still terminate here: every descent
lengthens the path, and a path longer than every key of `dirs` cannot be
listed. The measure is the set of keys of `dirs` at least as long as the
current path (`FileSystem.Pending`), so no fuel argument is needed.

`Agreement` relates the two walkers, which in the source share no code.
If every directory the walk reaches can be listed, the text is exactly what
the tree prints. The shared marker rule is `TextListing.EntryLine`. When a
nested listing fails, the tree records no children for that entry. The text
instead prints the error line `Error reading directory: <path>` with no
indentation. `Scenarios` works two small concrete filesystems through
both walkers.

Two details of the text walk:
- A symbolic link the listing reports as a directory is printed with `/`
  and, when recursive, descended into, because `IsDir()` is tested before
  the link probe (filelister.go:45-52).
- In `toText` a failed listing prints one unpadded error line in place of
  the directory's contents (filelister.go:31-34).

## Model

| member | source | states |
|---|---|---|
| FileSystem.SubPath | filelister.go:100 | the descent path is strictly longer than the directory path, has it as a prefix and ends in `/` |
| FileSystem.DescentShrinksPending | filelister.go:99-102 | descending into `path + name + "/"` from a listable directory strictly shrinks the set of keys of `dirs` at least as long as the current path, so the walks terminate |
| FileTree.ToFileDir | filelister.go:70-109 | a failed listing yields the empty sequence; otherwise there is one record per listed entry, in listing order, with name, size, time and directory flag copied, `IsLink` true iff the probe on `path + name` succeeds (whatever `IsDir` says), `LinksTo` the target or `""`, and no children unless recursive and a directory |
| FileTree.Nodes | filelister.go:82-106 | the loop over the entries yields exactly one record per entry, position by position, each describing its entry |
| FileTree.Node | filelister.go:84-102 | the record for one entry describes it: copied metadata, link flag and target from the probe, children empty unless recursive and a directory |
| FileTree.ChildrenOfDirectory | filelister.go:98-102 | in a recursive walk a directory entry's children are exactly the builder's result for `path + name + "/"` |
| FileTree.ToFileDirShape | filelister.go:95-102 | at every depth of the tree, a node has children only if it is a directory and the walk is recursive |
| TextListing.EntryLine | filelister.go:42-65 | the line is the padding and name plus at most one marker; a directory always gets `/`, whatever the probe says; a non-directory gets `*` iff its probe succeeded |
| TextListing.ToText | filelister.go:25-67 | a failed listing prints exactly one line, the error line for the path; a listable directory prints at least one line per entry; a non-recursive walk prints exactly one line per entry, in listing order, each with its marker |
| TextListing.Lines | filelister.go:37-66 | the loop prints at least one line per entry, and exactly one line per entry, in order, when not recursive |
| TextListing.EntryLines | filelister.go:39-65 | an entry's first line is its marked line; only a directory in a recursive walk adds further lines |
| TextListing.EntryBlockAt | filelister.go:37-52 | the output is the lines of the earlier entries, then entry i's own line, immediately followed (for a directory in a recursive walk) by the lines of `path + name + "/"` one tab deeper, then the lines of the later entries |
| TextListing.DirectoryBeatsLink | filelister.go:42-56 | a directory entry's line, at its position after the earlier entries' lines, is `padding + name + "/"` and never carries `*` |
| Agreement.TextMatchesTree | filelister.go:25-109 | when every directory reached can be listed, the text walk prints exactly the lines of the tree the builder returns, rendered with the same marker rule |
| Agreement.LinesMatchNodes | filelister.go:37-106 | when every directory below those entries can be listed, the two loops agree entry by entry: the text for a run of entries is the rendering of the records built for them |
| Agreement.TextLineCount | filelister.go:25-109 | when every directory reached can be listed, the text has exactly one line per record of the tree, counting every depth |
| Agreement.FailedSubdirectory | filelister.go:28-52 | in a recursive walk, a directory whose own listing fails gets no children in the tree, while the text prints its `/` line followed by the error line, with the siblings' lines unchanged around it |
| Cli.ParseFormat | filelister.go:137-141 | a selector is accepted iff it is `text`, `json` or `yaml`, and an accepted selector names the format it yields |
| Cli.FormatRoundTrip | filelister.go:138 | each format's selector is accepted as that format |
| Cli.NormalizePath | filelister.go:132-135 | the result ends in `/`, has the input as a prefix, is at most one character longer, and is the input itself when it already ends in `/` |
| Cli.NormalizeIdempotent | filelister.go:132-135 | normalising twice gives the same result as normalising once |
| Cli.PrepareRoot | filelister.go:118-135 | a root is produced iff the path is non-empty and listable as given, and it is the path itself when it ends in `/`, otherwise the path followed by one `/` |
| Scenarios.NestedTreeRecords | filelister.go:70-109 | a root with a file and a directory holding a file builds two records, the directory's with the one child record |
| Scenarios.NestedTreeText | filelister.go:25-67 | the same root prints `a.txt`, `b/`, and `c.txt` one tab deeper |
| Scenarios.LinkedDirectoryViews | filelister.go:40-102 | a symbolic link the listing reports as a directory is a record with both flags set, and its text line is marked `/`, not `*`; in a recursive walk both walkers descend into it, the tree giving it the child record and the text printing the child's line one tab deeper |

## Left out

- JSON and YAML encoding (`json.MarshalIndent`, `yaml.Marshal`) and the encoders' error messages: they are library serialisers whose output cannot be seen here, so the model stops at the `seq<FileDir>` value.
- Flag parsing, the `-path is required` and invalid-path messages, echoing the root, the dispatch on the format and writing to standard output (filelister.go:113-130, 144-181): I/O plumbing. `Cli.PrepareRoot` keeps the decisions of that code, not its messages. The text dispatch's starting padding of one tab (filelister.go:180) is a parameter of `TextListing.ToText`.
- The diagnostic `toFileDir` prints when a listing fails (filelister.go:75): a side effect that is not part of the returned value. Because `main` runs the builder before dispatching on the format (filelister.go:147), this diagnostic also appears in text mode, ahead of the lines `toText` prints; the model does not show that interleaving.
- The real operating-system semantics of `ioutil.ReadDir` and `os.Readlink` (sorting by name, lstat reporting a symlinked directory as a non-directory, permission errors): the listing and the probe are opaque inputs. Paths that differ only in a trailing `/` are unrelated keys here, so `Cli.PrepareRoot` can accept a root whose normalised form then fails to list, which the real `ReadDir` would not allow.
- The contents of the modification time: `FileSystem.Time` is only copied, never inspected.
- Non-termination on cyclic symbolic links: the filesystem is a finite map, so every walk here is finite.
- Agreement.TextMatchesTree: it holds only when every directory reached can be listed. A failed nested listing is covered separately by Agreement.FailedSubdirectory, because the tree keeps no trace of the failure.
