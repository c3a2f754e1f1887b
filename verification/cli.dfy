/**
 The pure checks the entry point makes before it starts a walk: the root
 path must be given and listable and is then made to end in `/`, and the
 output selector must name one of the three formats.
 */
module Cli {
  import opened FileSystem

  datatype Format = Text | Json | Yaml

  /** The selector string that chooses `f`. */
  function FormatName(f: Format): string
  {
    match f
    case Text => "text"
    case Json => "json"
    case Yaml => "yaml"
  }

  /** The format an output selector names, or `None` for a selector the tool rejects. */
  function ParseFormat(s: string): (r: Option<Format>)
    ensures r.Some? <==> (s == "text" || s == "json" || s == "yaml")
    ensures r.Some? ==> FormatName(r.value) == s
  {
    if s == "text" then Some(Text)
    else if s == "json" then Some(Json)
    else if s == "yaml" then Some(Yaml)
    else None
  }

  lemma FormatRoundTrip(f: Format)
    ensures ParseFormat(FormatName(f)) == Some(f)
  {
  }

  /** `path` with a `/` appended unless it already ends in one. */
  function NormalizePath(path: string): (r: string)
    requires path != []
    ensures |path| <= |r| <= |path| + 1
    ensures r[..|path|] == path
    ensures r[|r| - 1] == '/'
    ensures path[|path| - 1] == '/' ==> r == path
  {
    if path[|path| - 1] != '/' then path + "/" else path
  }

  lemma NormalizeIdempotent(path: string)
    requires path != []
    ensures NormalizePath(NormalizePath(path)) == NormalizePath(path)
  {
  }

  /**
   The root the walk starts from: `None` when the path is empty or cannot be
   listed as given, otherwise the path ending in `/`.
   */
  function PrepareRoot(fs: FileSystem, path: string): (r: Option<string>)
    ensures r.Some? <==> path != [] && List(fs, path).Some?
    ensures r.Some? ==> |path| <= |r.value| <= |path| + 1
    ensures r.Some? ==> r.value[..|path|] == path && r.value[|r.value| - 1] == '/'
    ensures r.Some? && path[|path| - 1] == '/' ==> r.value == path
  {
    if path == [] then None
    else if List(fs, path).None? then None
    else Some(NormalizePath(path))
  }
}
