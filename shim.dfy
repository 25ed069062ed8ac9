/** golta-shim: the `go` stand-in on PATH. It finds the version from the nearest
    `.golta.json` or `go.mod`, or the global default, and launches that version's binary,
    offering to install it first when it is missing. */
module Shim {
  import opened Wrappers
  import opened Strings
  import opened FileSystem
  import opened Layout
  import opened PinnedVersion
  import opened ActiveVersion
  import opened GoMod
  import opened Process

  const NoHomeError := "Could not find home directory"
  const NotSetError := "No Go version is set. Use `golta pin go@<version>` in your project, or `golta default go@<version>` globally."

  /** What one directory of the walk offers: its pin file first, then its go.mod. A pin
      file without a string "go" member, or a go.mod naming nothing, offers nothing. */
  function ShimStep(t: Tree, decode: Decoder, dir: Path): Result<Option<string>> {
    match PinAt(t, decode, dir)
    case Err(e) => Err(e)
    case Ok(Some(v)) => Ok(Some(v))
    case Ok(None) =>
      var goMod := GoModFile(dir);
      if !Exists(t, goMod) then Ok(None)
      else match ReadText(t, goMod)
        case Err(e) => Err(e)
        case Ok(text) => Ok(GoModVersion(text))
  }

  /** A walk from `dir` up to the root, stopping at the first directory whose step offers
      a version or fails. */
  function Walk(step: Path -> Result<Option<string>>, dir: Path): Result<Option<string>>
    decreases |dir|
  {
    match step(dir)
    case Err(e) => Err(e)
    case Ok(Some(v)) => Ok(Some(v))
    case Ok(None) => if dir == [] then Ok(None) else Walk(step, dir[..|dir| - 1])
  }

  /** The shim's walk: pin file, then go.mod, in each directory up to the root. */
  function ShimWalk(t: Tree, decode: Decoder, dir: Path): Result<Option<string>> {
    Walk(d => ShimStep(t, decode, d), dir)
  }

  /** Every directory of a walk closer than the one `k` components deep offers nothing. */
  predicate NothingBefore(step: Path -> Result<Option<string>>, start: Path, k: nat)
    requires k <= |start|
  {
    forall j :: k < j <= |start| ==> step(start[..j]) == Ok(None)
  }

  /** A version a walk finds comes from the nearest directory offering one. */
  lemma {:induction false} WalkFindsNearest(step: Path -> Result<Option<string>>, start: Path, v: string) returns (k: nat)
    requires Walk(step, start) == Ok(Some(v))
    ensures k <= |start| && step(start[..k]) == Ok(Some(v))
    ensures NothingBefore(step, start, k)
    decreases |start|
  {
    if step(start) == Ok(Some(v)) {
      k := |start|;
      assert start[..k] == start;
    } else {
      var parent := start[..|start| - 1];
      k := WalkFindsNearest(step, parent, v);
      assert start[..k] == parent[..k];
      assert forall j :: k < j <= |parent| ==> start[..j] == parent[..j];
      assert start[..|start|] == start;
    }
  }

  /** Conversely, the nearest directory offering a version decides. */
  lemma {:induction false} NearestIsFound(step: Path -> Result<Option<string>>, start: Path, k: nat, v: string)
    requires k <= |start| && step(start[..k]) == Ok(Some(v))
    requires NothingBefore(step, start, k)
    ensures Walk(step, start) == Ok(Some(v))
    decreases |start|
  {
    if k == |start| {
      assert start[..k] == start;
    } else {
      assert start[..|start|] == start;
      var parent := start[..|start| - 1];
      assert start[..k] == parent[..k];
      assert forall j :: k < j <= |parent| ==> start[..j] == parent[..j];
      NearestIsFound(step, parent, k, v);
    }
  }

  /** The global default as the shim reads it: an unreadable or missing file counts as
      empty, and an empty (or all-whitespace) default is an error. */
  function ShimDefault(t: Tree, home: Path): (r: Result<string>)
    ensures r.Ok? <==> ReadText(t, DefaultFile(home)).Ok? && !AllWhitespace(ReadText(t, DefaultFile(home)).value)
    ensures r.Ok? ==> r.value == Trim(ReadText(t, DefaultFile(home)).value) && r.value != []
    ensures r.Err? ==> r == Err(Message(NotSetError))
  {
    var text := ReadText(t, DefaultFile(home));
    var version := Trim(if text.Ok? then text.value else "");
    TrimEmpty(if text.Ok? then text.value else "");
    if version == "" then Err(Message(NotSetError)) else Ok(version)
  }

  /** `find_go_version`: the walk, then the default. */
  function ShimVersion(t: Tree, decode: Decoder, cwd: Path, home: Path): (r: Result<string>)
    ensures ShimWalk(t, decode, cwd).Err? ==> r == Err(ShimWalk(t, decode, cwd).error)
    ensures ShimWalk(t, decode, cwd).Ok? && ShimWalk(t, decode, cwd).value.Some? ==>
      r == Ok(ShimWalk(t, decode, cwd).value.value)
    ensures ShimWalk(t, decode, cwd) == Ok(None) ==> r == ShimDefault(t, home)
  {
    match ShimWalk(t, decode, cwd)
    case Err(e) => Err(e)
    case Ok(Some(v)) => Ok(v)
    case Ok(None) => ShimDefault(t, home)
  }

  /** `find_go_version`, walking up with a loop. */
  method FindGoVersion(t: Tree, decode: Decoder, start: Path, home: Path) returns (r: Result<string>)
    ensures r == ShimVersion(t, decode, start, home)
  {
    var current := start;
    while true
      invariant |current| <= |start| && current == start[..|current|]
      invariant ShimWalk(t, decode, current) == ShimWalk(t, decode, start)
      decreases |current|
    {
      var pin := PinFile(current);
      if Exists(t, pin) {
        var content := ReadText(t, pin);
        if content.Err? {
          return Err(content.error);
        }
        var json := ExtractGoVersion(decode, content.value);
        if json.Err? {
          return Err(json.error);
        }
        if json.value.Some? {
          return Ok(json.value.value);
        }
      }
      var goMod := GoModFile(current);
      if Exists(t, goMod) {
        var content := ReadText(t, goMod);
        if content.Err? {
          return Err(content.error);
        }
        var version := ParseGoMod(content.value);
        if version.Some? {
          return Ok(version.value);
        }
      }
      if current == [] {
        break;
      }
      current := current[..|current| - 1];
    }
    var text := ReadText(t, DefaultFile(home));
    var version := Trim(if text.Ok? then text.value else "");
    if version == "" {
      r := Err(Message(NotSetError));
    } else {
      r := Ok(version);
    }
  }

  /** Every directory of the shim's walk closer than the one `k` components deep offers
      nothing. */
  predicate NoStepCloser(t: Tree, decode: Decoder, start: Path, k: nat)
    requires k <= |start|
  {
    forall j :: k < j <= |start| ==> ShimStep(t, decode, start[..j]) == Ok(None)
  }

  /** A version the shim's walk finds comes from the nearest directory offering one. */
  lemma {:induction false} ShimWalkFindsNearest(t: Tree, decode: Decoder, start: Path, v: string) returns (k: nat)
    requires ShimWalk(t, decode, start) == Ok(Some(v))
    ensures k <= |start| && ShimStep(t, decode, start[..k]) == Ok(Some(v))
    ensures NoStepCloser(t, decode, start, k)
  {
    k := WalkFindsNearest(d => ShimStep(t, decode, d), start, v);
  }

  /** Conversely, the nearest directory offering a version decides: a go.mod in a closer
      directory wins over a pin file further up, and the default is not consulted. */
  lemma {:induction false} NearestStepIsFound(t: Tree, decode: Decoder, start: Path, home: Path, k: nat, v: string)
    requires k <= |start| && ShimStep(t, decode, start[..k]) == Ok(Some(v))
    requires NoStepCloser(t, decode, start, k)
    ensures ShimWalk(t, decode, start) == Ok(Some(v))
    ensures ShimVersion(t, decode, start, home) == Ok(v)
  {
    NearestIsFound(d => ShimStep(t, decode, d), start, k, v);
  }

  /** In one directory the pin file is read before go.mod: a pin naming a version hides
      whatever the go.mod says. */
  lemma {:induction false} PinBeforeGoMod(t: Tree, decode: Decoder, dir: Path, v: string, e: Entry)
    requires PinAt(t, decode, dir) == Ok(Some(v))
    ensures ShimStep(t[GoModFile(dir) := e], decode, dir) == Ok(Some(v))
  {
    var pin := PinFile(dir);
    assert pin != GoModFile(dir) by {
      assert pin[|pin| - 1] != GoModFile(dir)[|dir|];
    }
    assert PinAt(t[GoModFile(dir) := e], decode, dir) == PinAt(t, decode, dir);
  }

  /** With no go.mod anywhere on the walk, the shim's walk is the CLI's pin search. */
  lemma {:induction false} ShimWalkWithoutGoMod(t: Tree, decode: Decoder, start: Path)
    requires forall k :: 0 <= k <= |start| ==> GoModFile(start[..k]) !in t
    ensures ShimWalk(t, decode, start) ==
      match PinLookup(t, decode, start)
      case Err(e) => Err(e)
      case Ok(None) => Ok(None)
      case Ok(Some((v, _))) => Ok(Some(v))
    decreases |start|
  {
    assert start[..|start|] == start;
    if start != [] {
      var parent := start[..|start| - 1];
      assert forall k :: 0 <= k <= |parent| ==> parent[..k] == start[..k];
      ShimWalkWithoutGoMod(t, decode, parent);
    }
  }

  /** The shim and `golta current` agree when no go.mod is on the walk and the default
      file is readable or absent: the same version, the same error, and the shim's
      "not set" error exactly where the CLI reports no version. */
  lemma {:induction false} ShimAgreesWithCli(t: Tree, decode: Decoder, cwd: Path, home: Path)
    requires forall k :: 0 <= k <= |cwd| ==> GoModFile(cwd[..k]) !in t
    requires !Exists(t, DefaultFile(home)) || ReadText(t, DefaultFile(home)).Ok?
    ensures var cli := FindActiveGoVersion(t, decode, cwd, Some(home));
      ShimVersion(t, decode, cwd, home) ==
        match cli
        case Err(e) => Err(e)
        case Ok(None) => Err(Message(NotSetError))
        case Ok(Some(v)) => Ok(v)
  {
    ShimWalkWithoutGoMod(t, decode, cwd);
  }

  /** Where they part: an unreadable default file is an error for the CLI but reads as
      "no version set" in the shim. */
  lemma {:induction false} UnreadableDefaultDiffers(t: Tree, decode: Decoder, cwd: Path, home: Path)
    requires forall k :: 0 <= k <= |cwd| ==> GoModFile(cwd[..k]) !in t
    requires PinLookup(t, decode, cwd) == Ok(None)
    requires Exists(t, DefaultFile(home)) && ReadText(t, DefaultFile(home)).Err?
    ensures FindActiveGoVersion(t, decode, cwd, Some(home)) == Err(ReadText(t, DefaultFile(home)).error)
    ensures ShimVersion(t, decode, cwd, home) == Err(Message(NotSetError))
  {
    ShimWalkWithoutGoMod(t, decode, cwd);
  }

  /** The environment `execute_go` consults: `CI` set, `GOLTA_AUTO_INSTALL`'s value,
      and the platform. */
  datatype ShimEnv = ShimEnv(ci: bool, autoInstall: Option<string>, unix: bool, windows: bool)

  predicate AutoInstall(env: ShimEnv) {
    env.autoInstall == Some("1") || env.autoInstall == Some("true")
  }

  /** The answer to the install prompt accepts: empty, "y" or "yes", ignoring case and
      surrounding whitespace. */
  predicate Accepts(answer: string) {
    AsciiLower(Trim(answer)) in {"", "y", "yes"}
  }

  /** The program launched, its arguments, and the GOROOT it is given. */
  datatype Launch = Launch(program: Path, args: seq<string>, goroot: Path)

  /** What `execute_go` did: the program it launched, the `golta install` command it ran,
      what it wrote to stderr, and its result. A result of `Ok(None)` is a successful
      `exec` on Unix (the shim's process becomes `go`); `Ok(Some(c))` is the exit code
      elsewhere. */
  datatype ShimOutcome = ShimOutcome(launched: Option<Launch>, installCommand: Option<seq<string>>,
                                     stderr: seq<string>, result: Result<Option<int>>)

  function CiError(versionNumber: string): string {
    "Go version " + versionNumber + " is not installed. CI detected, aborting."
  }

  function Prompt(versionNumber: string): seq<string> {
    ["Go version " + versionNumber + " is not installed.", "Would you like to install it? [Y/n] "]
  }

  function InstallFailedError(version: string): string {
    "Failed to install Go version " + version + "."
  }

  function DeclinedError(version: string): string {
    "Go version " + version + " is not installed."
  }

  /** The GOROOT given to the child: the grandparent of the binary. */
  function GoRoot(program: Path): Path {
    if |program| < 2 then [] else program[..|program| - 2]
  }

  /** The launch itself: `exec` on Unix, which returns only on failure; elsewhere the
      child's exit code, 1 when it has none. */
  function Launched(program: Path, args: seq<string>, env: ShimEnv, launch: Result<ExitStatus>): (r: ShimOutcome)
    ensures r.launched == Some(Launch(program, args, GoRoot(program)))
    ensures launch.Err? ==> r.result == Err(launch.error)
    ensures env.unix && launch.Ok? ==> r.result == Ok(None)
    ensures !env.unix && launch.Ok? ==> r.result == Ok(Some(if launch.value.code.Some? then launch.value.code.value else 1))
  {
    var result :=
      if env.unix then (if launch.Err? then Err(launch.error) else Ok(None))
      else (var code := ExitCodeOf(launch); if code.Err? then Err(code.error) else Ok(Some(code.value)));
    ShimOutcome(Some(Launch(program, args, GoRoot(program))), None, [], result)
  }

  /** `execute_go`: the binary of `version` (leading `go@` prefixes dropped) is launched
      if present; otherwise, unless CI forbids it, the user is asked (or
      `GOLTA_AUTO_INSTALL` answers) and `golta install <version>` runs first. The prompt's
      answer and the install's status are parameters. */
  function ExecuteGo(version: string, home: Path, t: Tree, args: seq<string>, env: ShimEnv,
                     answer: Result<string>, installStatus: Result<bool>,
                     launch: Result<ExitStatus>): (r: ShimOutcome)
    ensures var vn := TrimStartMatches(version, "go@");
      var program := BinPath(home, vn, env.windows);
      && (Exists(t, program) ==>
            (r.installCommand == None && r.stderr == [] && r.launched == Some(Launch(program, args, VersionDir(home, vn)))))
      && (!Exists(t, program) && env.ci && !AutoInstall(env) ==>
            r == ShimOutcome(None, None, [], Err(Message(CiError(vn)))))
      && (r.installCommand.Some? <==> !Exists(t, program) && (AutoInstall(env) || (!env.ci && answer.Ok? && Accepts(answer.value))))
      && (r.installCommand.Some? ==> r.installCommand.value == ["golta", "install", version])
      && (r.launched.Some? <==> Exists(t, program) || (r.installCommand.Some? && installStatus == Ok(true)))
      && (r.launched.Some? ==> r.launched.value == Launch(program, args, VersionDir(home, vn)))
      && (r.stderr != [] <==> !Exists(t, program) && !env.ci && !AutoInstall(env))
      && (r.stderr != [] ==> r.stderr == Prompt(vn))
      && (r.result.Ok? ==> r.launched.Some?)
      && (r.launched.Some? ==> r.result == Launched(program, args, env, launch).result)
      && (!Exists(t, program) && !env.ci && !AutoInstall(env) && answer.Err? ==> r.result == Err(answer.error))
      && (!Exists(t, program) && !env.ci && !AutoInstall(env) && answer.Ok? && !Accepts(answer.value) ==>
            r.result == Err(Message(DeclinedError(version))))
      && (r.installCommand.Some? && installStatus.Err? ==> r.result == Err(installStatus.error))
      && (r.installCommand.Some? && installStatus == Ok(false) ==> r.result == Err(Message(InstallFailedError(version))))
  {
    var versionNumber := TrimStartMatches(version, "go@");
    var program := BinPath(home, versionNumber, env.windows);
    assert GoRoot(program) == VersionDir(home, versionNumber);
    if Exists(t, program) then Launched(program, args, env, launch)
    else if env.ci && !AutoInstall(env) then ShimOutcome(None, None, [], Err(Message(CiError(versionNumber))))
    else
      var prompt := if AutoInstall(env) then [] else Prompt(versionNumber);
      var install := ["golta", "install", version];
      if !AutoInstall(env) && answer.Err? then ShimOutcome(None, None, prompt, Err(answer.error))
      else if AutoInstall(env) || Accepts(answer.value) then
        match installStatus
        case Err(e) => ShimOutcome(None, Some(install), prompt, Err(e))
        case Ok(false) => ShimOutcome(None, Some(install), prompt, Err(Message(InstallFailedError(version))))
        case Ok(true) => Launched(program, args, env, launch).(installCommand := Some(install), stderr := prompt)
      else ShimOutcome(None, None, prompt, Err(Message(DeclinedError(version))))
  }

  /** `run`: no home directory is an error; otherwise the version is found and launched. A
      failed run exits with code 1 after printing `golta-shim error: <error>`. */
  function RunShim(t: Tree, decode: Decoder, cwd: Path, home: Option<Path>, args: seq<string>, env: ShimEnv,
                   answer: Result<string>, installStatus: Result<bool>,
                   launch: Result<ExitStatus>): (r: ShimOutcome)
    ensures home.None? ==> r == ShimOutcome(None, None, [], Err(Message(NoHomeError)))
    ensures home.Some? && ShimVersion(t, decode, cwd, home.value).Err? ==>
      r == ShimOutcome(None, None, [], Err(ShimVersion(t, decode, cwd, home.value).error))
    ensures home.Some? && ShimVersion(t, decode, cwd, home.value).Ok? ==>
      r == ExecuteGo(ShimVersion(t, decode, cwd, home.value).value, home.value, t, args, env, answer, installStatus, launch)
  {
    match home
    case None => ShimOutcome(None, None, [], Err(Message(NoHomeError)))
    case Some(h) =>
      match ShimVersion(t, decode, cwd, h)
      case Err(e) => ShimOutcome(None, None, [], Err(e))
      case Ok(version) => ExecuteGo(version, h, t, args, env, answer, installStatus, launch)
  }

  /** The process exit code of the shim: 1 for any error, the child's code otherwise
      (a successful Unix `exec` never returns to the shim). */
  function ExitCode(r: ShimOutcome): (code: Option<int>)
    ensures r.result.Err? ==> code == Some(1)
    ensures r.result.Ok? ==> code == r.result.value
  {
    if r.result.Err? then Some(1) else r.result.value
  }

  /** With the version's binary present, the shim launches the version the CLI resolves:
      no prompt, no install, and GOROOT is the version's directory. */
  lemma {:induction false} InstalledPinnedVersionLaunches(t: Tree, decode: Decoder, cwd: Path, home: Path,
                                                          args: seq<string>, env: ShimEnv, answer: Result<string>,
                                                          installStatus: Result<bool>, launch: Result<ExitStatus>,
                                                          v: string, p: Path)
    requires forall k :: 0 <= k <= |cwd| ==> GoModFile(cwd[..k]) !in t
    requires PinLookup(t, decode, cwd) == Ok(Some((v, p)))
    requires Exists(t, BinPath(home, TrimStartMatches(v, "go@"), env.windows))
    ensures var r := RunShim(t, decode, cwd, Some(home), args, env, answer, installStatus, launch);
      r.stderr == [] && r.installCommand == None &&
      r.launched == Some(Launch(BinPath(home, TrimStartMatches(v, "go@"), env.windows), args,
                                VersionDir(home, TrimStartMatches(v, "go@"))))
  {
    ShimWalkWithoutGoMod(t, decode, cwd);
  }
}
