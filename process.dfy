/** Starting a Go binary as a child process and waiting for it. */
module Process {
  import opened Wrappers
  import opened FileSystem

  /** How a child ended: its exit code, or none when a signal ended it. */
  datatype ExitStatus = ExitStatus(code: Option<int>)

  /** The exit code golta reports for a spawn attempt: a spawn error is passed on, and
      a child without an exit code counts as 1. */
  function ExitCodeOf(spawn: Result<ExitStatus>): (r: Result<int>)
    ensures spawn.Err? ==> r == Err(spawn.error)
    ensures spawn.Ok? && spawn.value.code.Some? ==> r == Ok(spawn.value.code.value)
    ensures spawn.Ok? && spawn.value.code.None? ==> r == Ok(1)
  {
    match spawn
    case Err(e) => Err(e)
    case Ok(ExitStatus(code)) => Ok(if code.Some? then code.value else 1)
  }

  /** `GoCommandRunner`: runs a binary with arguments. It remembers the last path and
      arguments it was given and how many times it ran; `spawn` is what the operating
      system does with the request. */
  class GoRunner {
    var lastPath: Option<Path>
    var lastArgs: seq<string>
    var runs: nat
    const spawn: Result<ExitStatus>

    constructor(spawn: Result<ExitStatus>)
      ensures this.spawn == spawn
      ensures lastPath == None && lastArgs == [] && runs == 0
    {
      this.spawn := spawn;
      lastPath := None;
      lastArgs := [];
      runs := 0;
    }

    /** `ProcessGoRunner::run`. */
    method Run(path: Path, args: seq<string>) returns (r: Result<int>)
      modifies this
      ensures lastPath == Some(path) && lastArgs == args && runs == old(runs) + 1
      ensures r == ExitCodeOf(spawn)
    {
      lastPath := Some(path);
      lastArgs := args;
      runs := runs + 1;
      r := ExitCodeOf(spawn);
    }
  }
}
