/** `golta default go@<version>` and `golta default clear`: the global default version. */
module Default {
  import opened Wrappers
  import opened Strings
  import opened FileSystem
  import opened Layout
  import opened LocalVersions
  import opened PinnedVersion
  import opened ActiveVersion

  datatype DefaultCommand = Clear | Set(tool: string)

  const NoHomeError := "Could not find home directory"
  const DefaultFormatError := "Only Go default version is supported currently. Use format 'go@<version>'."
  const ClearedMessage := "Cleared global default Go version."
  const NoDefaultMessage := "No global default Go version is set."

  function NotInstalledError(version: string): string {
    "Go version " + version + " is not installed. Please install it first with `golta install go@" + version + "`."
  }

  function SetMessage(version: string): string {
    "Set Go default version to " + version
  }

  /** The version `Set(tool)` would record, once the `go@` prefix and the installed
      versions are checked. */
  function SetRequest(tool: string, installed: Result<seq<string>>): (r: Result<string>)
    ensures !StartsWith(tool, "go@") ==> r == Err(Message(DefaultFormatError))
    ensures r.Ok? <==> StartsWith(tool, "go@") && installed.Ok? && TrimStartMatches(tool, "go@") in installed.value
    ensures r.Ok? ==> r.value == TrimStartMatches(tool, "go@")
    ensures StartsWith(tool, "go@") && installed.Err? ==> r == Err(installed.error)
    ensures StartsWith(tool, "go@") && installed.Ok? && TrimStartMatches(tool, "go@") !in installed.value ==>
      r == Err(Message(NotInstalledError(TrimStartMatches(tool, "go@"))))
  {
    if !StartsWith(tool, "go@") then Err(Message(DefaultFormatError))
    else
      var version := TrimStartMatches(tool, "go@");
      if installed.Err? then Err(installed.error)
      else if version !in installed.value then Err(Message(NotInstalledError(version)))
      else Ok(version)
  }

  /** The effect of `handle_default`: the home directory is needed first; Clear removes
      the default file if it exists; Set creates the state directory and writes the
      version into the default file. */
  function DefaultApplied(t: Tree, home: Option<Path>, cmd: DefaultCommand, installed: Result<seq<string>>): (r: Outcome)
    ensures home.None? ==> r == Outcome(Err(Message(NoHomeError)), t)
    ensures r.status.Err? && (cmd.Clear? || SetRequest(cmd.tool, installed).Err?) ==> r.tree == t
    ensures home.Some? ==> forall q :: q in t && q != DefaultFile(home.value) ==> q in r.tree && r.tree[q] == t[q]
    ensures home.Some? && cmd.Clear? ==> r.tree.Keys <= t.Keys
    ensures home.Some? && cmd.Clear? && r.status.Ok? ==> DefaultFile(home.value) !in r.tree
    ensures home.Some? && cmd.Set? ==> r.tree.Keys <= t.Keys + {DefaultFile(home.value)} + Ancestry(StateDir(home.value))
    ensures home.Some? && cmd.Set? && r.status.Ok? ==>
      ReadText(r.tree, DefaultFile(home.value)) == Ok(TrimStartMatches(cmd.tool, "go@"))
  {
    match home
    case None => Outcome(Err(Message(NoHomeError)), t)
    case Some(h) =>
      var file := DefaultFile(h);
      match cmd
      case Clear =>
        if !Exists(t, file) then Outcome(Ok(()), t)
        else
          var removed := FileRemoved(t, file);
          Outcome(Status(removed), After(t, removed))
      case Set(tool) =>
        match SetRequest(tool, installed)
        case Err(e) => Outcome(Err(e), t)
        case Ok(version) =>
          match DirsCreated(t, StateDir(h))
          case Err(e) => Outcome(Err(e), t)
          case Ok(t1) =>
            var written := FileWritten(t1, file, version);
            Outcome(Status(written), After(t1, written))
  }

  /** `handle_default`, with `get_installed_versions` read from the same disk. */
  method HandleDefault(disk: Disk, cmd: DefaultCommand, home: Option<Path>, listing: Listing)
    returns (r: Result<()>, out: seq<string>)
    modifies disk
    ensures Outcome(r, disk.tree) == DefaultApplied(old(disk.tree), home, cmd, InstalledVersions(old(disk.tree), home, listing))
    ensures r.Err? ==> out == []
    ensures r.Ok? && cmd.Clear? ==> out == [if Exists(old(disk.tree), DefaultFile(home.value)) then ClearedMessage else NoDefaultMessage]
    ensures r.Ok? && cmd.Set? ==> out == [SetMessage(TrimStartMatches(cmd.tool, "go@"))]
  {
    if home.None? {
      return Err(Message(NoHomeError)), [];
    }
    var file := DefaultFile(home.value);
    match cmd {
      case Clear =>
        if Exists(disk.tree, file) {
          r := disk.RemoveFile(file);
          out := if r.Ok? then [ClearedMessage] else [];
        } else {
          r := Ok(());
          out := [NoDefaultMessage];
        }
      case Set(tool) =>
        if !StartsWith(tool, "go@") {
          return Err(Message(DefaultFormatError)), [];
        }
        var version := TrimStartMatches(tool, "go@");
        var installed := GetInstalledVersions(disk.tree, home, listing);
        if installed.Err? {
          return Err(installed.error), [];
        }
        if version !in installed.value {
          return Err(Message(NotInstalledError(version))), [];
        }
        r := disk.CreateDirAll(StateDir(home.value));
        if r.Err? {
          return r, [];
        }
        r := disk.WriteFile(file, version);
        out := if r.Ok? then [SetMessage(version)] else [];
    }
  }

  /** Clearing twice is clearing once, and afterwards there is no default. */
  lemma {:induction false} ClearIdempotent(t: Tree, home: Path, installed: Result<seq<string>>)
    requires DefaultApplied(t, Some(home), Clear, installed).status.Ok?
    ensures var t1 := DefaultApplied(t, Some(home), Clear, installed).tree;
      DefaultApplied(t1, Some(home), Clear, installed) == Outcome(Ok(()), t1) &&
      DefaultVersion(t1, Some(home)) == Ok(None)
  {
  }

  /** A successful Set leaves exactly the version in the default file, and the resolver
      reads it back trimmed; with no pin on the walk it is the active version. (No
      component of the home path is itself named `.golta.json`.) */
  lemma {:induction false} SetRoundTrip(t: Tree, home: Path, tool: string, installed: Result<seq<string>>,
                                         decode: Decoder, cwd: Path)
    requires PinFileName !in home
    requires DefaultApplied(t, Some(home), Set(tool), installed).status.Ok?
    ensures var t1 := DefaultApplied(t, Some(home), Set(tool), installed).tree;
      var v := TrimStartMatches(tool, "go@");
      v in installed.value &&
      ReadText(t1, DefaultFile(home)) == Ok(v) &&
      DefaultVersion(t1, Some(home)) == (if AllWhitespace(v) then Ok(None) else Ok(Some(Trim(v)))) &&
      (PinLookup(t, decode, cwd) == Ok(None) ==> FindActiveGoVersion(t1, decode, cwd, Some(home)) == DefaultVersion(t1, Some(home)))
  {
    var t1 := DefaultApplied(t, Some(home), Set(tool), installed).tree;
    var t0 := DirsCreated(t, StateDir(home)).value;
    assert t1 == t0[DefaultFile(home) := File(Text(TrimStartMatches(tool, "go@")))];
    forall k | 0 <= k <= |cwd|
      ensures PinFile(cwd[..k]) in t <==> PinFile(cwd[..k]) in t1
      ensures PinFile(cwd[..k]) in t ==> t[PinFile(cwd[..k])] == t1[PinFile(cwd[..k])]
    {
      PinFileIsNotDefaultFile(cwd[..k], home);
      var p := PinFile(cwd[..k]);
      assert p[|p| - 1] == PinFileName;
      assert forall i :: 0 <= i < |StateDir(home)| ==> StateDir(home)[i] != PinFileName;
    }
    PinLookupFrame(t, t1, decode, cwd);
  }

  /** When the directory listing describes the disk and reads without error, a default
      of a non-empty version is accepted exactly when `~/.golta/versions/<version>` is a
      directory. */
  lemma {:induction false} SetAcceptsExactlyInstalled(t: Tree, home: Path, listing: Listing, tool: string)
    requires ListingOf(t, VersionsDir(home), listing)
    requires InstalledVersions(t, Some(home), listing).Ok?
    requires StartsWith(tool, "go@") && TrimStartMatches(tool, "go@") != ""
    ensures SetRequest(tool, InstalledVersions(t, Some(home), listing)).Ok? <==>
      Exists(t, VersionsDir(home)) && IsDir(t, VersionDir(home, TrimStartMatches(tool, "go@")))
  {
    InstalledIffDir(t, home, listing, TrimStartMatches(tool, "go@"));
  }

  /** A refused Set changes nothing. */
  lemma {:induction false} SetRefusalWritesNothing(t: Tree, home: Path, tool: string, installed: Result<seq<string>>)
    requires !StartsWith(tool, "go@") || (installed.Ok? && TrimStartMatches(tool, "go@") !in installed.value)
    ensures DefaultApplied(t, Some(home), Set(tool), installed) == Outcome(Err(SetRequest(tool, installed).error), t)
  {
  }
}
