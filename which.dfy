/** `golta which go`: prints the path of the active Go binary. */
module Which {
  import opened Wrappers
  import opened Strings
  import opened FileSystem
  import opened Layout
  import opened PinnedVersion
  import opened ActiveVersion
  import Exec

  const WhichToolError := "Only `go` is supported for which currently."
  const NoActiveError := "No Go version is active. Use `golta pin` or `golta default`."
  const NoHomeError := "Could not find home directory"

  /** `which_go`: the path it prints, `versions/<active without leading go@>/bin/go`. The
      emptiness check comes before `go@` is trimmed and nothing is trimmed of whitespace. */
  function WhichGo(tool: string, active: Result<Option<string>>, home: Option<Path>, windows: bool): (r: Result<Path>)
    ensures tool != "go" ==> r == Err(Message(WhichToolError))
    ensures tool == "go" && active.Err? ==> r == Err(active.error)
    ensures tool == "go" && (active == Ok(None) || active == Ok(Some(""))) ==> r == Err(Message(NoActiveError))
    ensures r.Ok? <==> tool == "go" && active.Ok? && active.value.Some? && active.value.value != "" && home.Some?
    ensures r.Ok? ==> r.value == BinPath(home.value, TrimStartMatches(active.value.value, "go@"), windows)
  {
    if tool != "go" then Err(Message(WhichToolError))
    else match active
      case Err(e) => Err(e)
      case Ok(None) => Err(Message(NoActiveError))
      case Ok(Some(version)) =>
        if version == "" then Err(Message(NoActiveError))
        else match home
          case None => Err(Message(NoHomeError))
          case Some(h) => Ok(BinPath(h, TrimStartMatches(version, "go@"), windows))
  }

  /** The line `which_go` prints. */
  function WhichOutput(tool: string, active: Result<Option<string>>, home: Option<Path>, windows: bool): seq<string> {
    var r := WhichGo(tool, active, home, windows);
    if r.Ok? then [Display(r.value)] else []
  }

  /** For an active version with no surrounding whitespace, which prints the binary exec
      would run; for "go@" alone which still prints a path, `versions/bin/go`, where
      exec refuses. */
  lemma {:induction false} WhichAgreesWithExec(active: string, home: Path, windows: bool)
    requires active == Trim(active)
    ensures TrimStartMatches(active, "go@") != "" ==>
      WhichGo("go", Ok(Some(active)), Some(home), windows) ==
        Ok(BinPath(home, Exec.ExecVersion("go", Ok(Some(active))).value, windows))
    ensures active == "go@" ==>
      WhichGo("go", Ok(Some(active)), Some(home), windows) == Ok(VersionsDir(home) + ["bin", ExecutableName(windows)]) &&
      Exec.ExecVersion("go", Ok(Some(active))).Err?
  {
    if active == "go@" {
      assert StartsWith(active, "go@");
      assert TrimStartMatches(active, "go@") == TrimStartMatches("", "go@");
    }
  }

  /** Which follows the pin: with a pin on the walk it prints that version's binary. */
  lemma {:induction false} WhichFollowsPin(t: Tree, decode: Decoder, cwd: Path, home: Path, windows: bool, v: string, p: Path)
    requires PinLookup(t, decode, cwd) == Ok(Some((v, p))) && v != ""
    ensures WhichGo("go", FindActiveGoVersion(t, decode, cwd, Some(home)), Some(home), windows) ==
      Ok(BinPath(home, TrimStartMatches(v, "go@"), windows))
  {
  }
}
