/** `golta run go@<version> <args>`: runs a named installed Go version. */
module Run {
  import opened Wrappers
  import opened Strings
  import opened FileSystem
  import opened Layout
  import opened Process

  const RunFormatError := "Only Go run is supported currently. Use format 'go@<version>'."
  const NoHomeError := "Could not find home directory"

  function NotInstalledError(version: string): string {
    "Go version " + version + " is not installed. Please install it first with `golta install go@" + version + "`."
  }

  /** The version `run_go` asks for: the argument with exactly one `go@` removed, which
      must leave something. */
  function RunVersion(tool: string): (r: Result<string>)
    ensures r.Ok? <==> StartsWith(tool, "go@") && |tool| > 3
    ensures r.Ok? ==> tool == "go@" + r.value
    ensures r.Err? ==> r == Err(Message(RunFormatError))
  {
    match StripPrefix(tool, "go@")
    case None => Err(Message(RunFormatError))
    case Some(version) => if version == "" then Err(Message(RunFormatError)) else Ok(version)
  }

  /** `RealGoRunEnvironment::go_binary_path`: `versions/<v>/go/bin/go`. */
  function RunGoBinaryPath(home: Option<Path>, version: string, windows: bool): (r: Result<Path>)
    ensures r.Ok? <==> home.Some?
    ensures r.Ok? ==> r.value == RunBinPath(home.value, version, windows)
  {
    match home
    case None => Err(Message(NoHomeError))
    case Some(h) => Ok(RunBinPath(h, version, windows))
  }

  /** `run_go`: validates the argument, checks that the binary exists, then hands its path
      and the arguments, unchanged, to the runner and returns its exit code. */
  method RunGo(tool: string, args: seq<string>, t: Tree, home: Option<Path>, windows: bool, runner: GoRunner)
    returns (r: Result<int>)
    modifies runner
    ensures var path := if RunVersion(tool).Ok? then RunGoBinaryPath(home, RunVersion(tool).value, windows) else Err(Message(""));
      if RunVersion(tool).Err? then
        r == Err(Message(RunFormatError)) && runner.runs == old(runner.runs) && runner.lastPath == old(runner.lastPath)
      else if path.Err? then
        r == Err(path.error) && runner.runs == old(runner.runs) && runner.lastPath == old(runner.lastPath)
      else if !Exists(t, path.value) then
        r == Err(Message(NotInstalledError(RunVersion(tool).value))) &&
        runner.runs == old(runner.runs) && runner.lastPath == old(runner.lastPath)
      else
        runner.lastPath == Some(path.value) && runner.lastArgs == args &&
        runner.runs == old(runner.runs) + 1 && r == ExitCodeOf(runner.spawn)
  {
    var version := RunVersion(tool);
    if version.Err? {
      return Err(version.error);
    }
    var path := RunGoBinaryPath(home, version.value, windows);
    if path.Err? {
      return Err(path.error);
    }
    if !Exists(t, path.value) {
      return Err(Message(NotInstalledError(version.value)));
    }
    r := runner.Run(path.value, args);
  }

  /** Run strips `go@` once where exec, which, pin and default strip it repeatedly: for
      every version `v`, `go@go@v` asks run for `go@v`, while repeated stripping removes
      both prefixes, so the two never agree on it. */
  lemma {:induction false} RunStripsOnce(v: string)
    ensures RunVersion("go@go@" + v) == Ok("go@" + v)
    ensures TrimStartMatches("go@go@" + v, "go@") == TrimStartMatches(v, "go@")
    ensures RunVersion("go@go@" + v) != Ok(TrimStartMatches("go@go@" + v, "go@"))
  {
    var s := "go@go@" + v;
    assert s[..3] == "go@" && s[3..] == "go@" + v;
    assert ("go@" + v)[..3] == "go@" && ("go@" + v)[3..] == v;
    TrimStartMatchesSuffix(v, "go@");
  }
}
