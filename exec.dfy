/** `golta exec go <args>`: runs the active Go version's binary. */
module Exec {
  import opened Wrappers
  import opened Strings
  import opened FileSystem
  import opened Layout
  import opened PinnedVersion
  import opened ActiveVersion
  import opened Process

  const ExecToolError := "Only `go` is supported for exec currently."
  const NoActiveError := "No Go version is active. Use `golta pin` or `golta default`."
  const NoHomeError := "Could not find home directory"

  /** `GoEnvironment`: the active version and what `go_binary_path` needs. */
  datatype GoEnvironment = GoEnvironment(active: Result<Option<string>>, home: Option<Path>, windows: bool)

  /** `RealGoEnvironment`: the active version comes from the resolver. */
  function RealEnvironment(t: Tree, decode: Decoder, cwd: Path, home: Option<Path>, windows: bool): GoEnvironment {
    GoEnvironment(FindActiveGoVersion(t, decode, cwd, home), home, windows)
  }

  /** The version `exec_go` asks for: the active version, trimmed, without its leading
      `go@` prefixes; a non-`go` tool, no active version or an empty one is an error. */
  function ExecVersion(tool: string, active: Result<Option<string>>): (r: Result<string>)
    ensures tool != "go" ==> r == Err(Message(ExecToolError))
    ensures tool == "go" && active.Err? ==> r == Err(active.error)
    ensures r.Ok? <==> tool == "go" && active.Ok? && active.value.Some? &&
                       TrimStartMatches(Trim(active.value.value), "go@") != ""
    ensures r.Ok? ==> r.value == TrimStartMatches(Trim(active.value.value), "go@") && !StartsWith(r.value, "go@")
    ensures tool == "go" && active.Ok? && r.Err? ==> r == Err(Message(NoActiveError))
  {
    if tool != "go" then Err(Message(ExecToolError))
    else match active
      case Err(e) => Err(e)
      case Ok(None) => Err(Message(NoActiveError))
      case Ok(Some(a)) =>
        var version := TrimStartMatches(Trim(a), "go@");
        if version == "" then Err(Message(NoActiveError)) else Ok(version)
  }

  /** `RealGoEnvironment::go_binary_path`: `versions/<v>/bin/go`, with `go@` trimmed again. */
  function GoBinaryPath(env: GoEnvironment, version: string): (r: Result<Path>)
    ensures r.Ok? <==> env.home.Some?
    ensures r.Ok? ==> r.value == BinPath(env.home.value, TrimStartMatches(version, "go@"), env.windows)
  {
    match env.home
    case None => Err(Message(NoHomeError))
    case Some(h) => Ok(BinPath(h, TrimStartMatches(version, "go@"), env.windows))
  }

  /** `exec_go`: validates, then hands the binary path and the arguments, unchanged, to
      the runner and returns its exit code. The runner is not used when a check fails. */
  method ExecGo(tool: string, args: seq<string>, env: GoEnvironment, runner: GoRunner) returns (r: Result<int>)
    modifies runner
    ensures ExecVersion(tool, env.active).Err? ==>
      r == Err(ExecVersion(tool, env.active).error) && runner.runs == old(runner.runs) &&
      runner.lastPath == old(runner.lastPath) && runner.lastArgs == old(runner.lastArgs)
    ensures ExecVersion(tool, env.active).Ok? && env.home.None? ==>
      r == Err(Message(NoHomeError)) && runner.runs == old(runner.runs) &&
      runner.lastPath == old(runner.lastPath) && runner.lastArgs == old(runner.lastArgs)
    ensures ExecVersion(tool, env.active).Ok? && env.home.Some? ==>
      runner.lastPath == Some(BinPath(env.home.value, ExecVersion(tool, env.active).value, env.windows)) &&
      runner.lastArgs == args && runner.runs == old(runner.runs) + 1 && r == ExitCodeOf(runner.spawn)
  {
    var version := ExecVersion(tool, env.active);
    if version.Err? {
      return Err(version.error);
    }
    var path := GoBinaryPath(env, version.value);
    if path.Err? {
      return Err(path.error);
    }
    TrimStartMatchesIdempotent(Trim(env.active.value.value), "go@");
    r := runner.Run(path.value, args);
  }

  /** With a pin on the walk, exec asks for the pinned version, whatever the default says. */
  lemma {:induction false} ExecFollowsPin(t: Tree, decode: Decoder, cwd: Path, home: Option<Path>, windows: bool,
                                          v: string, p: Path)
    requires PinLookup(t, decode, cwd) == Ok(Some((v, p)))
    ensures ExecVersion("go", RealEnvironment(t, decode, cwd, home, windows).active) ==
      if TrimStartMatches(Trim(v), "go@") == "" then Err(Message(NoActiveError)) else Ok(TrimStartMatches(Trim(v), "go@"))
  {
  }
}
