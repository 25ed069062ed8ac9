/** `golta install <tool>[@<version>]`: resolving a Go version against the download
    catalog, downloading and placing it, and installing auxiliary tools with `go install`. */
module Install {
  import opened Wrappers
  import opened Strings
  import opened FileSystem
  import opened Layout

  /** One entry of the Go download catalog. */
  datatype GoVersionInfo = GoVersionInfo(version: string, stable: bool)

  /** The index of the first element satisfying `p` (`Iterator::find`). */
  function FirstWhere<T>(s: seq<T>, p: T -> bool): (r: Option<nat>)
    ensures r.None? <==> forall i :: 0 <= i < |s| ==> !p(s[i])
    ensures r.Some? ==> r.value < |s| && p(s[r.value]) && forall j :: 0 <= j < r.value ==> !p(s[j])
  {
    if s == [] then None
    else if p(s[0]) then Some(0)
    else
      var rest := FirstWhere(s[1..], p);
      assert forall i :: 1 <= i < |s| ==> s[i] == s[1..][i - 1];
      if rest.None? then None else Some(rest.value + 1)
  }

  /** The version on the first line that starts with "go ", with that prefix (removed
      repeatedly) and surrounding whitespace trimmed. */
  function FirstGoLine(lines: seq<string>): (r: Option<string>)
    ensures r.None? <==> forall i :: 0 <= i < |lines| ==> !StartsWith(lines[i], "go ")
    ensures r.Some? ==>
      exists i :: 0 <= i < |lines| && StartsWith(lines[i], "go ") &&
        (forall j :: 0 <= j < i ==> !StartsWith(lines[j], "go ")) &&
        r.value == Trim(TrimStartMatches(lines[i], "go "))
  {
    match FirstWhere(lines, (l: string) => StartsWith(l, "go "))
    case None => None
    case Some(i) =>
      assert 0 <= i < |lines| && StartsWith(lines[i], "go ") && forall j :: 0 <= j < i ==> !StartsWith(lines[j], "go ");
      Some(Trim(TrimStartMatches(lines[i], "go ")))
  }

  /** `read_go_mod_version`: `./go.mod`'s first `go` line; nothing when there is no
      current directory or the file cannot be read. */
  function ReadGoModVersion(t: Tree, cwd: Option<Path>): (r: Option<string>)
    ensures cwd.None? || ReadText(t, GoModFile(cwd.value)).Err? ==> r == None
    ensures cwd.Some? && ReadText(t, GoModFile(cwd.value)).Ok? ==> r == FirstGoLine(Lines(ReadText(t, GoModFile(cwd.value)).value))
  {
    if cwd.None? then None
    else match ReadText(t, GoModFile(cwd.value))
      case Err(_) => None
      case Ok(content) => FirstGoLine(Lines(content))
  }

  const NoGoModVersionError := "Could not find 'go <version>' in go.mod"

  /** `parse_tool_and_version`: bare `go` takes go.mod's version or "latest"; `go@mod`
      requires go.mod's version; otherwise the input splits at its first '@', and a bare
      tool gets "latest". The go.mod version is a parameter (`ReadGoModVersion`). */
  function ParseToolAndVersion(input: string, goMod: Option<string>): (r: Result<(string, string)>)
    ensures input == "go" ==> r == Ok(("go", if goMod.Some? then goMod.value else "latest"))
    ensures input == "go@mod" ==> r == if goMod.Some? then Ok(("go", goMod.value)) else Err(Message(NoGoModVersionError))
    ensures input != "go@mod" ==> r.Ok?
    ensures input != "go" && input != "go@mod" && '@' in input ==>
      r.value.0 + "@" + r.value.1 == input && '@' !in r.value.0
    ensures input != "go" && '@' !in input ==> r == Ok((input, "latest"))
  {
    if input == "go" then Ok(("go", if goMod.Some? then goMod.value else "latest"))
    else if input == "go@mod" then
      if goMod.Some? then Ok(("go", goMod.value)) else Err(Message(NoGoModVersionError))
    else match SplitOnce(input, '@')
      case Some((tool, version)) => Ok((tool, version))
      case None => Ok((input, "latest"))
  }

  /** The first '@' of `tool@version` is the one after the tool name. */
  lemma {:induction false} SplitAtFirstAt(tool: string, version: string)
    requires '@' !in tool
    ensures SplitOnce(tool + "@" + version, '@') == Some((tool, version))
  {
    var s := tool + "@" + version;
    assert s[|tool|] == '@';
    var r := SplitOnce(s, '@');
    var a := r.value.0;
    assert forall k :: 0 <= k < |tool| ==> s[k] == tool[k] && s[k] != '@';
    assert forall k :: 0 <= k < |a| ==> s[k] == a[k] && s[k] != '@';
    assert s[|a|] == '@';
    assert |a| == |tool|;
    assert a == s[..|a|] == tool;
    assert r.value.1 == s[|a| + 1..] == version;
  }

  /** Writing `tool@version` and parsing it gives the pair back. */
  lemma {:induction false} ParseRoundTrip(tool: string, version: string, goMod: Option<string>)
    requires '@' !in tool && tool + "@" + version != "go@mod"
    ensures ParseToolAndVersion(tool + "@" + version, goMod) == Ok((tool, version))
  {
    SplitAtFirstAt(tool, version);
  }

  /** The tools `install_go_tool` knows. */
  const KnownTools: set<string> := {"gopls", "dlv", "air", "staticcheck", "golangci-lint"}

  /** `get_tool_info`: the package to `go install` and the module whose latest version is
      asked of the proxy. */
  function ToolInfo(tool: string): (r: Option<(string, string)>)
    ensures r.Some? ==> StartsWith(r.value.0, r.value.1)
  {
    if tool == "gopls" then
      Some(("golang.org/x/tools/gopls", "golang.org/x/tools/gopls"))
    else if tool == "dlv" then
      Some(("github.com/go-delve/delve/cmd/dlv", "github.com/go-delve/delve"))
    else if tool == "air" then
      Some(("github.com/air-verse/air", "github.com/air-verse/air"))
    else if tool == "staticcheck" then
      Some(("honnef.co/go/tools/cmd/staticcheck", "honnef.co/go/tools"))
    else if tool == "golangci-lint" then
      Some(("github.com/golangci/golangci-lint/cmd/golangci-lint", "github.com/golangci/golangci-lint"))
    else None
  }

  /** `get_tool_info` knows exactly the listed tools. */
  lemma ToolInfoKnown(tool: string)
    ensures ToolInfo(tool).Some? <==> tool in KnownTools
  {
  }

  /** A catalog version without its leading "go" (removed repeatedly). */
  function Bare(version: string): string {
    TrimStartMatches(version, "go")
  }

  const NoStableError := "Could not find a stable Go version."

  function NotFoundError(spec: string): string {
    "Go version '" + spec + "' not found. Please specify an exact version from `golta list-remote`."
  }

  /** `resolve_go_version_from_list`: "latest" is the first stable entry; any other spec
      must equal an entry's bare version. */
  function ResolveFromList(spec: string, versions: seq<GoVersionInfo>): (r: Result<string>)
    ensures spec == "latest" ==> (r.Ok? <==> exists i :: 0 <= i < |versions| && versions[i].stable)
    ensures spec == "latest" && r.Ok? ==>
      exists i :: 0 <= i < |versions| && versions[i].stable &&
        (forall j :: 0 <= j < i ==> !versions[j].stable) && r.value == Bare(versions[i].version)
    ensures spec == "latest" && r.Err? ==> r.error == Message(NoStableError)
    ensures spec != "latest" ==> (r.Ok? <==> exists i :: 0 <= i < |versions| && Bare(versions[i].version) == spec)
    ensures spec != "latest" && r.Ok? ==> r.value == spec
    ensures spec != "latest" && r.Err? ==> r.error == Message(NotFoundError(spec))
  {
    if spec == "latest" then
      match FirstWhere(versions, (v: GoVersionInfo) => v.stable)
      case None => Err(Message(NoStableError))
      case Some(i) => Ok(Bare(versions[i].version))
    else
      match FirstWhere(versions, (v: GoVersionInfo) => Bare(v.version) == spec)
      case None => Err(Message(NotFoundError(spec)))
      case Some(i) => Ok(Bare(versions[i].version))
  }

  /** `build_install_dir`: `~/.golta/versions/<version>`. */
  function InstallDir(home: Path, version: string): Path {
    Join(VersionsDir(home), version)
  }

  const DownloadPrefix := "https://golang.org/dl/go"

  /** `build_download_url`. */
  function DownloadUrl(version: string, osArch: string, format: string): string {
    DownloadPrefix + version + "." + osArch + "." + format
  }

  /** For one platform, different versions download from different URLs: the version can
      be read back from the URL. */
  lemma {:induction false} DownloadUrlDeterminesVersion(v1: string, v2: string, osArch: string, format: string)
    requires DownloadUrl(v1, osArch, format) == DownloadUrl(v2, osArch, format)
    ensures v1 == v2
  {
    var u := DownloadUrl(v1, osArch, format);
    var n := |DownloadPrefix|;
    assert |v1| == |v2|;
    assert u[n..n + |v1|] == v1;
    assert DownloadUrl(v2, osArch, format)[n..n + |v2|] == v2;
  }

  /** One member of a downloaded archive: its path below the archive root and what it is. */
  datatype ArchiveMember = Member(path: Path, entry: Entry)

  /** A decoded download: its members (each of which may fail to read) or a decoding error. */
  datatype Archive = Archive(members: seq<Result<ArchiveMember>>) | Undecodable(error: Error)

  /** Unpacking the members in order below `root`; the first failure stops the run and
      leaves what was unpacked before it. A member with an empty path (the archive
      root itself) unpacks to nothing. */
  function UnpackedAll(t: Tree, root: Path, members: seq<Result<ArchiveMember>>): (r: Outcome)
    decreases |members|
  {
    if members == [] then Outcome(Ok(()), t)
    else
      var previous := UnpackedAll(t, root, members[..|members| - 1]);
      if previous.status.Err? then previous
      else match members[|members| - 1]
        case Err(e) => Outcome(Err(e), previous.tree)
        case Ok(m) =>
          if m.path == [] then previous
          else
            var next := Unpacked(previous.tree, root + m.path, m.entry);
            Outcome(Status(next), After(previous.tree, next))
  }

  /** A failed unpacking run stops: later members change nothing. */
  lemma {:induction false} UnpackedAllStops(t: Tree, root: Path, members: seq<Result<ArchiveMember>>, k: nat)
    requires k <= |members| && UnpackedAll(t, root, members[..k]).status.Err?
    ensures UnpackedAll(t, root, members) == UnpackedAll(t, root, members[..k])
    decreases |members|
  {
    if k < |members| {
      var n := |members| - 1;
      assert members[..n][..k] == members[..k];
      UnpackedAllStops(t, root, members[..n], k);
    } else {
      assert members[..k] == members;
    }
  }

  /** Unpacking below `root` leaves every path that is not strictly below `root` as it was. */
  lemma {:induction false} UnpackedAllKeeps(t: Tree, root: Path, members: seq<Result<ArchiveMember>>, q: Path)
    requires q in t && (|q| <= |root| || !Under(q, root))
    ensures q in UnpackedAll(t, root, members).tree && UnpackedAll(t, root, members).tree[q] == t[q]
    decreases |members|
  {
    if members != [] {
      var n := |members| - 1;
      UnpackedAllKeeps(t, root, members[..n], q);
      var previous := UnpackedAll(t, root, members[..n]);
      if previous.status.Ok? && members[n].Ok? && members[n].value.path != [] {
        var p := root + members[n].value.path;
        assert p[..|root|] == root;
        assert q != p;
      }
    }
  }

  function TempDir(installDir: Path): Path { installDir + ["go_temp"] }
  function SourceDir(installDir: Path): Path { TempDir(installDir) + ["go"] }
  function GoDir(installDir: Path): Path { installDir + ["go"] }

  /** `extract_tar_gz`: unpack into `go_temp` (created if missing), then move
      `go_temp/go` to `go`, refusing when the first is missing or the second exists. */
  function Extracted(t: Tree, archive: Archive, installDir: Path): (r: Outcome)
  {
    var temp := TempDir(installDir);
    var created := if Exists(t, temp) then Ok(t) else DirsCreated(t, temp);
    match created
    case Err(e) => Outcome(Err(e), t)
    case Ok(t0) =>
      match archive
      case Undecodable(e) => Outcome(Err(e), t0)
      case Archive(members) =>
        var unpacked := UnpackedAll(t0, temp, members);
        if unpacked.status.Err? then unpacked else Placed(unpacked.tree, installDir)
  }

  /** The last step of `extract_tar_gz`: move `go_temp/go` to `go`, refusing when the
      first is missing or the second exists. */
  function Placed(t: Tree, installDir: Path): Outcome {
    var source := SourceDir(installDir);
    var destination := GoDir(installDir);
    if !Exists(t, source) then Outcome(Err(Io(NotFound, source)), t)
    else if Exists(t, destination) then Outcome(Err(Io(AlreadyExists, destination)), t)
    else
      var moved := Renamed(t, source, destination);
      Outcome(Status(moved), After(t, moved))
  }

  /** A successful placement has moved `go_temp/go` to `go`. */
  lemma PlacedMoves(t: Tree, installDir: Path)
    requires Placed(t, installDir).status.Ok?
    ensures Placed(t, installDir).tree == Moved(t, SourceDir(installDir), GoDir(installDir))
    ensures GoDir(installDir) in Placed(t, installDir).tree
    ensures SourceDir(installDir) !in Placed(t, installDir).tree
  {
    var source := SourceDir(installDir);
    var dest := GoDir(installDir);
    assert Relocated(source, source, dest) == dest;
    assert source[|installDir|] != dest[|installDir|];
    assert !Under(source, dest);
  }

  /** Placement leaves every path outside `go_temp/go` and `go` as it was. */
  lemma PlacedKeeps(t: Tree, installDir: Path, q: Path)
    requires q in t && !Under(q, SourceDir(installDir)) && !Under(q, GoDir(installDir))
    ensures q in Placed(t, installDir).tree && Placed(t, installDir).tree[q] == t[q]
  {
  }

  /** Placement refuses an existing `go` and then changes nothing. */
  lemma PlacedRefuses(t: Tree, installDir: Path)
    requires GoDir(installDir) in t
    ensures Placed(t, installDir).status.Err? && Placed(t, installDir).tree == t
  {
  }

  /** `Archive::unpack` on the disk: the members in order below `root`, stopping at the
      first failure. */
  method UnpackMembers(disk: Disk, root: Path, members: seq<Result<ArchiveMember>>) returns (r: Result<()>)
    modifies disk
    ensures Outcome(r, disk.tree) == UnpackedAll(old(disk.tree), root, members)
  {
    ghost var t0 := disk.tree;
    for i := 0 to |members|
      invariant UnpackedAll(t0, root, members[..i]) == Outcome(Ok(()), disk.tree)
    {
      assert members[..i + 1][..i] == members[..i];
      assert members[..i + 1][i] == members[i];
      if members[i].Err? {
        UnpackedAllStops(t0, root, members, i + 1);
        return Err(members[i].error);
      }
      var member := members[i].value;
      if member.path != [] {
        r := disk.Unpack(root + member.path, member.entry);
        if r.Err? {
          UnpackedAllStops(t0, root, members, i + 1);
          return;
        }
      }
    }
    assert members[..|members|] == members;
    r := Ok(());
  }

  /** `extract_tar_gz` on the disk. */
  method ExtractTarGz(disk: Disk, archive: Archive, installDir: Path) returns (r: Result<()>)
    modifies disk
    ensures Outcome(r, disk.tree) == Extracted(old(disk.tree), archive, installDir)
  {
    var temp := TempDir(installDir);
    if !Exists(disk.tree, temp) {
      r := disk.CreateDirAll(temp);
      if r.Err? {
        return;
      }
    }
    if archive.Undecodable? {
      return Err(archive.error);
    }
    r := UnpackMembers(disk, temp, archive.members);
    if r.Err? {
      return;
    }
    var source := SourceDir(installDir);
    var destination := GoDir(installDir);
    if !Exists(disk.tree, source) {
      return Err(Io(NotFound, source));
    }
    if Exists(disk.tree, destination) {
      return Err(Io(AlreadyExists, destination));
    }
    r := disk.Rename(source, destination);
  }

  /** The placement guard, success side: a successful extraction has moved `go_temp/go`
      to `go`. */
  lemma {:induction false} ExtractPlacesGoDir(t: Tree, archive: Archive, installDir: Path)
    requires Extracted(t, archive, installDir).status.Ok?
    ensures GoDir(installDir) in Extracted(t, archive, installDir).tree
    ensures SourceDir(installDir) !in Extracted(t, archive, installDir).tree
  {
    var temp := TempDir(installDir);
    var created := if Exists(t, temp) then Ok(t) else DirsCreated(t, temp);
    var unpacked := UnpackedAll(created.value, temp, archive.members);
    PlacedMoves(unpacked.tree, installDir);
  }

  /** The `go` directory extraction places holds the binary `run` starts, and not the
      one `exec`, `which` and the shim start: after a fresh install only `run` finds a
      binary below it. */
  lemma GoDirServesRunOnly(home: Path, v: string, windows: bool)
    requires v != ""
    ensures Under(RunBinPath(home, v, windows), GoDir(InstallDir(home, v)))
    ensures RunBinPath(home, v, windows) == GoDir(InstallDir(home, v)) + ["bin", ExecutableName(windows)]
    ensures !Under(BinPath(home, v, windows), GoDir(InstallDir(home, v)))
  {
    var bin := BinPath(home, v, windows);
    var go := GoDir(InstallDir(home, v));
    assert bin[|go| - 1] == "bin" != go[|go| - 1];
  }

  /** The placement guard, refusal side: an existing `go` directory is never overwritten,
      whatever the archive holds; everything below it is left as it was. */
  lemma {:induction false} ExtractKeepsExistingGoDir(t: Tree, archive: Archive, installDir: Path)
    requires GoDir(installDir) in t
    ensures Extracted(t, archive, installDir).status.Err?
    ensures forall q :: q in t && Under(q, GoDir(installDir)) ==>
      q in Extracted(t, archive, installDir).tree && Extracted(t, archive, installDir).tree[q] == t[q]
  {
    var temp := TempDir(installDir);
    var dest := GoDir(installDir);
    var created := if Exists(t, temp) then Ok(t) else DirsCreated(t, temp);
    if created.Ok? && archive.Archive? {
      var t0 := created.value;
      var unpacked := UnpackedAll(t0, temp, archive.members);
      forall q | q in t && Under(q, dest)
        ensures q in unpacked.tree && unpacked.tree[q] == t[q]
      {
        assert q in t0 && t0[q] == t[q];
        assert q[|installDir|] == dest[|installDir|] != temp[|installDir|];
        UnpackedAllKeeps(t0, temp, archive.members, q);
      }
      assert dest in unpacked.tree;
      if unpacked.status.Ok? {
        PlacedRefuses(unpacked.tree, installDir);
      }
    }
  }

  /** What `install_go` did: its result, the tree it left, what it wrote, and the URL it
      downloaded (none when it did not download). */
  datatype InstallRun = InstallRun(status: Result<()>, tree: Tree, out: seq<string>, downloaded: Option<string>)

  function AlreadyInstalledMessage(version: string): string {
    "Go " + version + " is already installed."
  }

  function InstalledMessage(version: string, dir: Path): string {
    "Go " + version + " installed to \"" + Display(dir) + "\""
  }

  /** The part of `install_go` after resolution: skip an existing version directory,
      else download, create the directory and extract. */
  function VersionInstalled(t: Tree, version: string, home: Path, osArch: string, format: string,
                            download: Result<Archive>): InstallRun
  {
    var dir := InstallDir(home, version);
    if Exists(t, dir) then InstallRun(Ok(()), t, [AlreadyInstalledMessage(version)], None)
    else
      var url := DownloadUrl(version, osArch, format);
      var out := ["Downloading " + url + " ..."];
      match download
      case Err(e) => InstallRun(Err(e), t, out, Some(url))
      case Ok(archive) =>
        match DirsCreated(t, dir)
        case Err(e) => InstallRun(Err(e), t, out, Some(url))
        case Ok(t1) =>
          var x := Extracted(t1, archive, dir);
          var out := out + ["Extracting..."];
          if x.status.Err? then InstallRun(x.status, x.tree, out, Some(url))
          else InstallRun(Ok(()), x.tree, out + [InstalledMessage(version, dir)], Some(url))
  }

  /** `install_go`: resolve the spec against the fetched catalog, then install that
      version. The catalog, the platform and the download are parameters. */
  function GoInstalled(t: Tree, spec: string, home: Path, fetched: Result<seq<GoVersionInfo>>,
                       osArch: string, format: string, download: Result<Archive>): InstallRun
  {
    var finding := ["Finding matching Go version for \"" + spec + "\"..."];
    match fetched
    case Err(e) => InstallRun(Err(e), t, finding, None)
    case Ok(versions) =>
      match ResolveFromList(spec, versions)
      case Err(e) => InstallRun(Err(e), t, finding, None)
      case Ok(version) =>
        var found := if spec == "latest" then [] else ["Found matching version: " + version];
        var run := VersionInstalled(t, version, home, osArch, format, download);
        run.(out := finding + found + ["Installing Go version " + version] + run.out)
  }

  /** `install_go` on the disk. */
  method InstallGo(disk: Disk, spec: string, home: Path, fetched: Result<seq<GoVersionInfo>>,
                   osArch: string, format: string, download: Result<Archive>)
    returns (r: Result<()>, out: seq<string>, downloaded: Option<string>)
    modifies disk
    ensures InstallRun(r, disk.tree, out, downloaded) ==
      GoInstalled(old(disk.tree), spec, home, fetched, osArch, format, download)
  {
    out := ["Finding matching Go version for \"" + spec + "\"..."];
    if fetched.Err? {
      return Err(fetched.error), out, None;
    }
    var resolved := ResolveFromList(spec, fetched.value);
    if resolved.Err? {
      return Err(resolved.error), out, None;
    }
    var version := resolved.value;
    if spec != "latest" {
      out := out + ["Found matching version: " + version];
    }
    out := out + ["Installing Go version " + version];
    ghost var head := out;
    assert GoInstalled(disk.tree, spec, home, fetched, osArch, format, download) ==
      var run := VersionInstalled(disk.tree, version, home, osArch, format, download);
      run.(out := head + run.out);
    var rest;
    r, rest, downloaded := InstallVersion(disk, version, home, osArch, format, download);
    out := out + rest;
  }

  /** The download-and-extract part of `install_go` on the disk. */
  method InstallVersion(disk: Disk, version: string, home: Path, osArch: string, format: string,
                        download: Result<Archive>)
    returns (r: Result<()>, out: seq<string>, downloaded: Option<string>)
    modifies disk
    ensures InstallRun(r, disk.tree, out, downloaded) ==
      VersionInstalled(old(disk.tree), version, home, osArch, format, download)
  {
    var dir := InstallDir(home, version);
    if Exists(disk.tree, dir) {
      return Ok(()), [AlreadyInstalledMessage(version)], None;
    }
    var url := DownloadUrl(version, osArch, format);
    out := ["Downloading " + url + " ..."];
    downloaded := Some(url);
    if download.Err? {
      return Err(download.error), out, downloaded;
    }
    r := disk.CreateDirAll(dir);
    if r.Err? {
      return;
    }
    out := out + ["Extracting..."];
    r := ExtractTarGz(disk, download.value, dir);
    if r.Ok? {
      out := out + [InstalledMessage(version, dir)];
    }
  }

  /** An existing version directory short-circuits: nothing is downloaded and the disk is
      unchanged. */
  lemma {:induction false} AlreadyInstalledSkips(t: Tree, spec: string, home: Path, versions: seq<GoVersionInfo>,
                                                 osArch: string, format: string, download: Result<Archive>)
    requires ResolveFromList(spec, versions).Ok?
    requires Exists(t, InstallDir(home, ResolveFromList(spec, versions).value))
    ensures var run := GoInstalled(t, spec, home, Ok(versions), osArch, format, download);
      run.status.Ok? && run.tree == t && run.downloaded == None && |run.out| > 0 &&
      run.out[|run.out| - 1] == AlreadyInstalledMessage(ResolveFromList(spec, versions).value)
  {
  }

  /** Installing is idempotent: after a successful install, installing the same spec
      against the same catalog downloads nothing and changes nothing. */
  lemma {:induction false} InstallTwiceSkips(t: Tree, spec: string, home: Path, versions: seq<GoVersionInfo>,
                                             osArch: string, format: string, download: Result<Archive>,
                                             download2: Result<Archive>)
    requires GoInstalled(t, spec, home, Ok(versions), osArch, format, download).status.Ok?
    ensures var t1 := GoInstalled(t, spec, home, Ok(versions), osArch, format, download).tree;
      var again := GoInstalled(t1, spec, home, Ok(versions), osArch, format, download2);
      again.status.Ok? && again.tree == t1 && again.downloaded == None
  {
    var run := GoInstalled(t, spec, home, Ok(versions), osArch, format, download);
    var version := ResolveFromList(spec, versions).value;
    VersionInstalledKeepsDir(t, version, home, osArch, format, download);
    AlreadyInstalledSkips(run.tree, spec, home, versions, osArch, format, download2);
  }

  /** A successful install leaves the version directory in place. */
  lemma VersionInstalledKeepsDir(t: Tree, version: string, home: Path, osArch: string, format: string,
                                 download: Result<Archive>)
    requires VersionInstalled(t, version, home, osArch, format, download).status.Ok?
    ensures Exists(VersionInstalled(t, version, home, osArch, format, download).tree, InstallDir(home, version))
  {
    var dir := InstallDir(home, version);
    if !Exists(t, dir) {
      var t1 := DirsCreated(t, dir).value;
      assert IsDir(t1, dir);
      ExtractKeepsInstallDir(t1, download.value, dir);
    }
  }

  /** Extraction keeps the install directory itself. */
  lemma {:induction false} ExtractKeepsInstallDir(t: Tree, archive: Archive, dir: Path)
    requires dir in t
    ensures dir in Extracted(t, archive, dir).tree
  {
    var temp := TempDir(dir);
    var created := if Exists(t, temp) then Ok(t) else DirsCreated(t, temp);
    if created.Ok? && archive.Archive? {
      UnpackedAllKeeps(created.value, temp, archive.members, dir);
      var unpacked := UnpackedAll(created.value, temp, archive.members);
      if unpacked.status.Ok? {
        PlacedKeeps(unpacked.tree, dir, dir);
      }
    }
  }

  /** The `go install` child of `install_go_tool`: its arguments and its GOBIN. */
  datatype GoInstallCommand = GoInstallCommand(args: seq<string>, gobin: Path)

  /** How the child went: it ran (successfully or not), or could not be started. */
  datatype Spawn = Spawned(success: bool) | SpawnFailed(reason: string)

  /** What `install_go_tool` did: its result, what it wrote, whether it asked the module
      proxy for the latest version, and the command it ran. */
  datatype ToolRun = ToolRun(status: Result<()>, out: seq<string>, proxyQueried: bool,
                             command: Option<GoInstallCommand>)

  function UnknownToolError(tool: string): string {
    "Unknown tool: '" + tool + "'. Currently supported tools: gopls, dlv, air, staticcheck, golangci-lint"
  }

  /** The directory a tool version is installed under. */
  function ToolDir(home: Path, tool: string, version: string): Path {
    Join(Join(VersionsDir(home), tool), version)
  }

  /** `install_go_tool`: unknown tools fail first; "latest" is resolved through the proxy
      (its answer is a parameter); an existing `bin` directory means already installed;
      otherwise `go install <package>@<version>` runs with GOBIN set to it. */
  function ToolInstalled(t: Tree, tool: string, version: string, home: Path,
                         latest: Result<string>, spawn: Spawn): (r: ToolRun)
    ensures ToolInfo(tool).None? ==> r == ToolRun(Err(Message(UnknownToolError(tool))), [], false, None)
    ensures r.proxyQueried <==> ToolInfo(tool).Some? && version == "latest"
    ensures r.status.Ok? ==> ToolInfo(tool).Some? && (r.command.Some? ==> r.command.value.args != [])
    ensures r.command.Some? ==> (r.status.Ok? <==> spawn == Spawned(true))
  {
    match ToolInfo(tool)
    case None => ToolRun(Err(Message(UnknownToolError(tool))), [], false, None)
    case Some((packagePath, modulePath)) =>
      var asked := version == "latest";
      var queried := if asked then ["Resolving latest version for " + modulePath + "..."] else [];
      var resolved := if asked then latest else Ok(version);
      match resolved
      case Err(e) => ToolRun(Err(e), queried, asked, None)
      case Ok(v) =>
        var run := ToolVersionInstalled(t, tool, packagePath, v, home, spawn);
        run.(out := queried + run.out, proxyQueried := asked)
  }

  /** The part of `install_go_tool` after the version is known: an existing `bin`
      directory means already installed; otherwise `go install` runs. */
  function ToolVersionInstalled(t: Tree, tool: string, packagePath: string, v: string, home: Path,
                                spawn: Spawn): (r: ToolRun)
    ensures r.command.Some? <==> !Exists(t, ToolDir(home, tool, v) + ["bin"])
    ensures Exists(t, ToolDir(home, tool, v) + ["bin"]) ==>
      r == ToolRun(Ok(()), [tool + " " + v + " is already installed."], false, None)
    ensures r.command.Some? ==> (r.status.Ok? <==> spawn == Spawned(true))
    ensures r.command.Some? && spawn.SpawnFailed? ==> r.status.Err? && r.out == ["Installing " + tool + "@" + v + "..."]
  {
    var bin := ToolDir(home, tool, v) + ["bin"];
    if Exists(t, bin) then ToolRun(Ok(()), [tool + " " + v + " is already installed."], false, None)
    else
      var out := ["Installing " + tool + "@" + v + "..."];
      var command := Some(GoInstallCommand(["install", packagePath + "@" + v], bin));
      match spawn
      case SpawnFailed(reason) =>
        ToolRun(Err(Message("Failed to execute 'go install': " + reason + ". Make sure 'go' is in your PATH or installed via golta.")),
                out, false, command)
      case Spawned(false) => ToolRun(Err(Message("Failed to install " + tool + "@" + v)), out, false, command)
      case Spawned(true) =>
        ToolRun(Ok(()), out + ["Installed " + tool + " " + v + " to \"" + Display(bin) + "\""], false, command)
  }

  /** `install_go_tool` runs `go install <package>@<version>` with GOBIN set to the
      version's `bin` directory exactly when the tool is known, its version resolved and
      that directory is missing. */
  lemma ToolInstallCommand(t: Tree, tool: string, version: string, home: Path,
                           latest: Result<string>, spawn: Spawn)
    ensures var r := ToolInstalled(t, tool, version, home, latest, spawn);
      r.command.Some? ==>
        ToolInfo(tool).Some? && (version == "latest" ==> latest.Ok?) &&
        var resolved := if version == "latest" then latest.value else version;
        !Exists(t, ToolDir(home, tool, resolved) + ["bin"]) &&
        r.command.value == GoInstallCommand(["install", ToolInfo(tool).value.0 + "@" + resolved], ToolDir(home, tool, resolved) + ["bin"])
    ensures var r := ToolInstalled(t, tool, version, home, latest, spawn);
      ToolInfo(tool).Some? && (version != "latest" || latest.Ok?) ==>
        (r.command.Some? <==> !Exists(t, ToolDir(home, tool, if version == "latest" then latest.value else version) + ["bin"]))
    ensures var r := ToolInstalled(t, tool, version, home, latest, spawn);
      ToolInfo(tool).Some? && (version != "latest" || latest.Ok?) ==>
        var resolved := if version == "latest" then latest.value else version;
        Exists(t, ToolDir(home, tool, resolved) + ["bin"]) ==>
          r.status == Ok(()) && r.command.None? && |r.out| >= 1 &&
          r.out[|r.out| - 1] == tool + " " + resolved + " is already installed."
  {
  }
}
