/** `golta list-remote [tool]`: the versions a tool can be installed at, newest first,
    with a cache that is reused while the newest version has not changed. */
module ListRemote {
  import opened Wrappers
  import opened Strings
  import opened FileSystem
  import opened Layout
  import opened Install

  /** The cache file of a tool below `~/.golta/cache`. */
  function CacheFileName(tool: string): string {
    if tool == "go" then "remote_versions.json" else "remote_versions_" + tool + ".json"
  }

  function CacheFilePath(home: Path, tool: string): Path {
    CacheDir(home) + [CacheFileName(tool)]
  }

  /** Different tools never share a cache file. */
  lemma {:induction false} CacheFileNameInjective(a: string, b: string)
    requires CacheFileName(a) == CacheFileName(b)
    ensures a == b
  {
    var prefix := "remote_versions_";
    if a != "go" && b != "go" {
      assert |a| == |b|;
      forall i | 0 <= i < |a|
        ensures a[i] == b[i]
      {
        assert CacheFileName(a)[|prefix| + i] == a[i];
        assert CacheFileName(b)[|prefix| + i] == b[i];
      }
    }
  }

  /** What the cache file holds: nothing, a list that cannot be read or parsed, or a
      stored list. */
  datatype CacheFile = Absent | Unparsable(error: Error) | Stored(versions: seq<GoVersionInfo>)

  /** `read_cache`: a missing file is no cache; a file that cannot be read is an error. */
  function CacheRead(f: CacheFile): (r: Result<Option<seq<GoVersionInfo>>>)
    ensures r.Err? <==> f.Unparsable?
    ensures r == Ok(None) <==> f.Absent?
    ensures f.Stored? ==> r == Ok(Some(f.versions))
  {
    match f
    case Absent => Ok(None)
    case Unparsable(e) => Err(e)
    case Stored(vs) => Ok(Some(vs))
  }

  /** `read_cache().unwrap_or(None)`: what `list_remote_versions` takes as the cache; a
      cache that cannot be read counts as no cache. */
  function Cached(f: CacheFile): (r: Option<seq<GoVersionInfo>>)
    ensures r.Some? <==> f.Stored?
    ensures r.Some? ==> r.value == f.versions
  {
    var read := CacheRead(f);
    if read.Ok? then read.value else None
  }

  /** `FsRemoteVersionsCache`: the tool's cache file. `writeError` is what creating its
      directory or writing it reports, if anything; `writes` counts the writes. */
  class VersionsCache {
    const path: Path
    const writeError: Option<Error>
    var file: CacheFile
    var writes: nat

    constructor(home: Path, tool: string, f: CacheFile, failure: Option<Error>)
      ensures path == CacheFilePath(home, tool) && file == f && writeError == failure && writes == 0
    {
      path := CacheFilePath(home, tool);
      writeError := failure;
      file := f;
      writes := 0;
    }

    method ReadCache() returns (r: Result<Option<seq<GoVersionInfo>>>)
      ensures r == CacheRead(file)
    {
      r := CacheRead(file);
    }

    /** `write_cache`: replaces the stored list, or reports the failure and keeps it. */
    method WriteCache(versions: seq<GoVersionInfo>) returns (r: Result<()>)
      modifies this
      ensures writes == old(writes) + 1
      ensures r.Ok? <==> writeError.None?
      ensures r.Err? ==> r.error == writeError.value && file == old(file)
      ensures r.Ok? ==> file == Stored(versions)
    {
      writes := writes + 1;
      if writeError.Some? {
        r := Err(writeError.value);
      } else {
        file := Stored(versions);
        r := Ok(());
      }
    }
  }

  /** One line written to standard output. The two notices quote an error through its
      `Display`, which is not modelled: they carry the error itself. */
  datatype OutLine = Said(line: string) | FetchFailedNotice(fetchError: Error) | CacheWarning(writeError: Error)

  const RenderHeader := "\nAvailable versions:"
  const RenderFooter := "\nUse `golta install <tool>@<version>` to install a specific version."

  /** A version's line: its number without leading "go", marked when unstable. */
  function VersionLine(v: GoVersionInfo): string {
    "  " + Bare(v.version) + if v.stable then "" else " (unstable)"
  }

  /** The version lines of a list, one per version, in the list's order. */
  function VersionLines(vs: seq<GoVersionInfo>): (r: seq<OutLine>)
    ensures |r| == |vs|
    ensures forall i :: 0 <= i < |vs| ==> r[i] == Said(VersionLine(vs[i]))
  {
    if vs == [] then [] else VersionLines(vs[..|vs| - 1]) + [Said(VersionLine(vs[|vs| - 1]))]
  }

  /** `render_versions`'s output: a header, the version lines and a hint. */
  function Rendered(vs: seq<GoVersionInfo>): (r: seq<OutLine>)
    ensures |r| == |vs| + 2 && r[0] == Said(RenderHeader) && r[|r| - 1] == Said(RenderFooter)
    ensures forall i :: 0 <= i < |vs| ==> r[i + 1] == Said(VersionLine(vs[i]))
  {
    [Said(RenderHeader)] + VersionLines(vs) + [Said(RenderFooter)]
  }

  /** `render_versions`. */
  method RenderVersions(vs: seq<GoVersionInfo>) returns (out: seq<OutLine>)
    ensures out == Rendered(vs)
  {
    out := [Said(RenderHeader)];
    for i := 0 to |vs|
      invariant out == [Said(RenderHeader)] + VersionLines(vs[..i])
    {
      assert vs[..i + 1][..i] == vs[..i];
      var number := TrimStartMatches(vs[i].version, "go");
      if vs[i].stable {
        assert VersionLine(vs[i]) == "  " + number;
        out := out + [Said("  " + number)];
      } else {
        out := out + [Said("  " + number + " (unstable)")];
      }
    }
    assert vs[..|vs|] == vs;
    out := out + [Said(RenderFooter)];
  }

  /** The cache is reused when it and the fetched list both have a newest entry and the
      two are equal. */
  predicate HeadsMatch(cached: Option<seq<GoVersionInfo>>, remote: seq<GoVersionInfo>) {
    cached.Some? && cached.value != [] && remote != [] && cached.value[0] == remote[0]
  }

  /** The fetched list is shown and written to the cache. */
  predicate Refreshes(f: CacheFile, fetched: Result<seq<GoVersionInfo>>) {
    fetched.Ok? && !HeadsMatch(Cached(f), fetched.value)
  }

  datatype Listing = Listing(status: Result<()>, out: seq<OutLine>)

  function UnchangedNotice(toolName: string): string {
    "Latest " + toolName + " versions unchanged; showing cached results."
  }

  function FetchingNotice(toolName: string): string {
    "Fetching available " + toolName + " versions..."
  }

  /** `list_remote_versions`: what it returns and writes, given the cache file, the fetch
      result and how a cache write would go. */
  function Listed(toolName: string, f: CacheFile, fetched: Result<seq<GoVersionInfo>>,
                  writeError: Option<Error>): (r: Listing)
    ensures r.status.Err? <==> fetched.Err? && !f.Stored?
    ensures r.status.Err? ==> r.status.error == fetched.error && r.out == []
    ensures Refreshes(f, fetched) ==>
      r.out == [Said(FetchingNotice(toolName))] + Rendered(fetched.value) +
               (if writeError.Some? then [CacheWarning(writeError.value)] else [])
    ensures fetched.Ok? && !Refreshes(f, fetched) ==>
      r.out == [Said(UnchangedNotice(toolName))] + Rendered(f.versions)
    ensures fetched.Err? && f.Stored? ==> r.out == [FetchFailedNotice(fetched.error)] + Rendered(f.versions)
  {
    var cached := Cached(f);
    match fetched
    case Ok(remote) =>
      if HeadsMatch(cached, remote) then
        Listing(Ok(()), [Said(UnchangedNotice(toolName))] + Rendered(cached.value))
      else
        var warning := if writeError.Some? then [CacheWarning(writeError.value)] else [];
        Listing(Ok(()), [Said(FetchingNotice(toolName))] + Rendered(remote) + warning)
    case Err(e) =>
      if cached.Some? then Listing(Ok(()), [FetchFailedNotice(e)] + Rendered(cached.value))
      else Listing(Err(e), [])
  }

  /** `list_remote_versions` on a cache object: the cache is written exactly when the
      fetched list is shown, and a failed write only adds a warning. */
  method ListRemoteVersions(toolName: string, fetched: Result<seq<GoVersionInfo>>, cache: VersionsCache)
    returns (r: Result<()>, out: seq<OutLine>)
    modifies cache
    ensures Listing(r, out) == Listed(toolName, old(cache.file), fetched, cache.writeError)
    ensures cache.writes == old(cache.writes) + if Refreshes(old(cache.file), fetched) then 1 else 0
    ensures cache.file == if Refreshes(old(cache.file), fetched) && cache.writeError.None?
                          then Stored(fetched.value) else old(cache.file)
  {
    var read := cache.ReadCache();
    var cached := if read.Ok? then read.value else None;
    match fetched
    case Ok(remote) =>
      var useCache := cached.Some? && cached.value != [] && remote != [] && cached.value[0] == remote[0];
      if useCache {
        var lines := RenderVersions(cached.value);
        return Ok(()), [Said(UnchangedNotice(toolName))] + lines;
      }
      var lines := RenderVersions(remote);
      out := [Said(FetchingNotice(toolName))] + lines;
      var written := cache.WriteCache(remote);
      if written.Err? {
        out := out + [CacheWarning(written.error)];
      }
      r := Ok(());
    case Err(e) =>
      if cached.Some? {
        var lines := RenderVersions(cached.value);
        return Ok(()), [FetchFailedNotice(e)] + lines;
      }
      return Err(e), [];
  }

  /** A cache that is shown after a successful fetch starts with the newest fetched version:
      reuse never hides a newer release. */
  lemma ReusedCacheIsCurrent(toolName: string, f: CacheFile, remote: seq<GoVersionInfo>, writeError: Option<Error>)
    requires remote != [] && !Refreshes(f, Ok(remote))
    ensures f.Stored? && f.versions != [] && f.versions[0] == remote[0]
    ensures Listed(toolName, f, Ok(remote), writeError).out[2] == Said(VersionLine(remote[0]))
  {
  }

  /** A successful fetch never fails the command, whether or not the cache can be written,
      and shows either the fetched list or the cached one. */
  lemma {:induction false} FetchSucceeds(toolName: string, f: CacheFile, remote: seq<GoVersionInfo>, writeError: Option<Error>)
    ensures Listed(toolName, f, Ok(remote), writeError).status == Ok(())
    ensures Refreshes(f, Ok(remote)) ==>
      Listed(toolName, f, Ok(remote), writeError).out[1..|remote| + 3] == Rendered(remote)
    ensures !Refreshes(f, Ok(remote)) ==>
      f.Stored? && Listed(toolName, f, Ok(remote), writeError).out[1..] == Rendered(f.versions)
  {
    var out := Listed(toolName, f, Ok(remote), writeError).out;
    if Refreshes(f, Ok(remote)) {
      assert out[1..|remote| + 3] == Rendered(remote);
    } else {
      assert out[1..] == Rendered(f.versions);
    }
  }

  /** A cache that cannot be read lists exactly as no cache at all. */
  lemma UnreadableCacheIsNoCache(toolName: string, e: Error, fetched: Result<seq<GoVersionInfo>>, writeError: Option<Error>)
    ensures Listed(toolName, Unparsable(e), fetched, writeError) == Listed(toolName, Absent, fetched, writeError)
    ensures Refreshes(Unparsable(e), fetched) == Refreshes(Absent, fetched)
  {
  }

  /** After a listing that refreshed a writable cache with a non-empty list, the same
      fetch result is answered from the cache and nothing more is written. */
  lemma RefreshThenReuse(toolName: string, f: CacheFile, remote: seq<GoVersionInfo>)
    requires remote != [] && Refreshes(f, Ok(remote))
    ensures !Refreshes(Stored(remote), Ok(remote))
    ensures Listed(toolName, Stored(remote), Ok(remote), None).out ==
      [Said(UnchangedNotice(toolName))] + Rendered(remote)
  {
  }

  /** `ListRemoteVersions` twice with the same non-empty fetch result on a writable cache:
      at most one write in all, and the second run answers from a cache whose newest
      entry is the fetched one. */
  method ListTwice(toolName: string, remote: seq<GoVersionInfo>, cache: VersionsCache)
    returns (first: seq<OutLine>, second: seq<OutLine>)
    requires remote != [] && cache.writeError.None?
    modifies cache
    ensures cache.writes <= old(cache.writes) + 1
    ensures cache.file.Stored? && cache.file.versions != [] && cache.file.versions[0] == remote[0]
    ensures second == [Said(UnchangedNotice(toolName))] + Rendered(cache.file.versions)
  {
    var r1;
    r1, first := ListRemoteVersions(toolName, Ok(remote), cache);
    var r2;
    r2, second := ListRemoteVersions(toolName, Ok(remote), cache);
  }

  /** A fetch failure falls back to any readable cache, even an empty one, and is
      returned only when there is none. */
  lemma FetchFailure(toolName: string, f: CacheFile, e: Error, writeError: Option<Error>)
    ensures Listed(toolName, f, Err(e), writeError).status == if f.Stored? then Ok(()) else Err(e)
    ensures !Refreshes(f, Err(e))
  {
  }

  /** `fetch_tool_versions`' URL: the module's version list on the Go module proxy. */
  function ProxyListUrl(modulePath: string): string {
    "https://proxy.golang.org/" + modulePath + "/@v/list"
  }

  /** A proxy version is stable unless it mentions "rc", "beta" or "alpha". */
  predicate IsStable(v: string) {
    !Contains(v, "rc") && !Contains(v, "beta") && !Contains(v, "alpha")
  }

  /** The entry of one non-blank proxy line. */
  function ProxyEntry(line: string): (r: GoVersionInfo)
    ensures r.version != [] <==> !AllWhitespace(line)
    ensures r.version == [] || (!IsWhitespace(r.version[0]) && !IsWhitespace(r.version[|r.version| - 1]))
    ensures r.stable <==> IsStable(r.version)
  {
    var v := Trim(line);
    TrimEmpty(line);
    GoVersionInfo(v, IsStable(v))
  }

  /** The entries of the proxy's lines, blank lines skipped, in the proxy's order. */
  function ProxyEntries(lines: seq<string>): (r: seq<GoVersionInfo>)
    ensures |r| <= |lines|
  {
    if lines == [] then []
    else
      var n := |lines| - 1;
      var rest := ProxyEntries(lines[..n]);
      if Trim(lines[n]) == "" then rest else rest + [ProxyEntry(lines[n])]
  }

  /** A non-blank proxy line gives an entry. */
  lemma {:induction false} ProxyLineKept(lines: seq<string>, j: nat)
    requires j < |lines| && Trim(lines[j]) != ""
    ensures ProxyEntry(lines[j]) in ProxyEntries(lines)
  {
    var n := |lines| - 1;
    if j < n {
      ProxyLineKept(lines[..n], j);
      assert lines[..n][j] == lines[j];
      assert ProxyEntries(lines[..n]) <= ProxyEntries(lines);
    }
  }

  /** Every entry has a non-blank version classified by `IsStable`, and every non-blank
      line gives an entry. */
  lemma {:induction false} ProxyEntriesKept(lines: seq<string>)
    ensures forall e :: e in ProxyEntries(lines) ==> e.version != [] && (e.stable <==> IsStable(e.version))
    ensures forall j :: 0 <= j < |lines| && Trim(lines[j]) != "" ==> ProxyEntry(lines[j]) in ProxyEntries(lines)
  {
    if lines != [] {
      ProxyEntriesKept(lines[..|lines| - 1]);
    }
    forall j | 0 <= j < |lines| && Trim(lines[j]) != "" {
      ProxyLineKept(lines, j);
    }
  }

  /** Reading one more proxy line. */
  lemma ProxyEntriesNext(lines: seq<string>, i: nat)
    requires i < |lines|
    ensures ProxyEntries(lines[..i + 1]) ==
      if Trim(lines[i]) == "" then ProxyEntries(lines[..i]) else ProxyEntries(lines[..i]) + [ProxyEntry(lines[i])]
  {
    assert lines[..i + 1][..i] == lines[..i];
  }

  /** `s` in reverse order. */
  function Reversed<T>(s: seq<T>): (r: seq<T>)
    ensures |r| == |s|
    ensures forall i :: 0 <= i < |s| ==> r[i] == s[|s| - 1 - i]
  {
    if s == [] then [] else [s[|s| - 1]] + Reversed(s[..|s| - 1])
  }

  /** Reversing twice gives the list back. */
  lemma ReversedTwice<T>(s: seq<T>)
    ensures Reversed(Reversed(s)) == s
  {
  }

  /** `Vec::reverse`, in place. */
  method ReverseInPlace<T>(a: array<T>)
    modifies a
    ensures a[..] == Reversed(old(a[..]))
  {
    ghost var goal := Reversed(a[..]);
    var n := a.Length;
    var i := 0;
    // The first and last `i` slots already hold the reversed list; the middle is untouched.
    while i < n / 2
      invariant 0 <= i <= n / 2
      invariant forall k :: 0 <= k < i || n - i <= k < n ==> a[k] == goal[k]
      invariant forall k :: i <= k < n - i ==> a[k] == old(a[k])
    {
      a[i], a[n - 1 - i] := a[n - 1 - i], a[i];
      i := i + 1;
    }
    assert forall k :: 0 <= k < n ==> a[k] == goal[k];
  }

  /** `fetch_tool_versions` after the download: the proxy's non-blank lines, trimmed and
      classified, newest (last) first. */
  method ParseProxyList(response: string) returns (versions: seq<GoVersionInfo>)
    ensures versions == Reversed(ProxyEntries(Lines(response)))
  {
    var lines := Lines(response);
    var kept: seq<GoVersionInfo> := [];
    for i := 0 to |lines|
      invariant kept == ProxyEntries(lines[..i])
    {
      ProxyEntriesNext(lines, i);
      if Trim(lines[i]) != "" {
        var v := Trim(lines[i]);
        var stable := !Contains(v, "rc") && !Contains(v, "beta") && !Contains(v, "alpha");
        kept := kept + [GoVersionInfo(v, stable)];
      }
    }
    assert lines[..|lines|] == lines;
    var a := new GoVersionInfo[|kept|](i requires 0 <= i < |kept| => kept[i]);
    assert a[..] == kept;
    ReverseInPlace(a);
    versions := a[..];
  }

  /** The proxy's last non-blank line is the first version listed. */
  lemma {:induction false} ProxyNewestFirst(lines: seq<string>)
    requires lines != [] && Trim(lines[|lines| - 1]) != ""
    ensures Reversed(ProxyEntries(lines)) != []
    ensures Reversed(ProxyEntries(lines))[0] == ProxyEntry(lines[|lines| - 1])
  {
  }

  const NoHomeError := "Could not find home directory"

  function UnknownListToolError(tool: string): string {
    "Unknown tool '" + tool + "'. Supported tools: gopls, dlv, air, staticcheck, golangci-lint"
  }

  /** What `run` sets up: the name shown, where the versions come from (the Go download
      catalog, or a module's proxy list), and the cache file. */
  datatype Plan = Plan(toolName: string, proxyUrl: Option<string>, cachePath: Path)

  /** `run`: the tool defaults to go; the home directory is needed first; go lists the
      download catalog, a known tool its module's proxy list, and an unknown tool is an
      error. */
  function ListPlan(toolArg: Option<string>, home: Option<Path>): (r: Result<Plan>)
    ensures home.None? ==> r == Err(Message(NoHomeError))
    ensures var tool := if toolArg.Some? then toolArg.value else "go";
      home.Some? ==>
        (r.Ok? <==> tool == "go" || tool in KnownTools) &&
        (r.Err? ==> r.error == Message(UnknownListToolError(tool))) &&
        (r.Ok? ==> r.value.cachePath == CacheFilePath(home.value, tool) &&
                   (r.value.proxyUrl.None? <==> tool == "go") &&
                   (tool == "go" ==> r.value.toolName == "Go") &&
                   (tool != "go" ==> r.value.toolName == tool &&
                                     r.value.proxyUrl == Some(ProxyListUrl(ToolInfo(tool).value.1))))
  {
    var tool := if toolArg.Some? then toolArg.value else "go";
    ToolInfoKnown(tool);
    match home
    case None => Err(Message(NoHomeError))
    case Some(h) =>
      if tool == "go" then Ok(Plan("Go", None, CacheFilePath(h, tool)))
      else match ToolInfo(tool)
        case None => Err(Message(UnknownListToolError(tool)))
        case Some((_, modulePath)) => Ok(Plan(tool, Some(ProxyListUrl(modulePath)), CacheFilePath(h, tool)))
  }
}
