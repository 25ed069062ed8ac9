/** Where golta keeps its state below the home directory, and where each command
    looks for a Go binary. */
module Layout {
  import opened FileSystem

  const PinFileName := ".golta.json"

  /** How a path is printed on Unix: its components, each after a "/". */
  function Display(p: Path): string {
    if p == [] then "/" else Components(p)
  }

  function Components(p: Path): string {
    if p == [] then "" else "/" + p[0] + Components(p[1..])
  }

  function GoltaDir(home: Path): Path { home + [".golta"] }
  function VersionsDir(home: Path): Path { GoltaDir(home) + ["versions"] }
  function StateDir(home: Path): Path { GoltaDir(home) + ["state"] }
  function CacheDir(home: Path): Path { GoltaDir(home) + ["cache"] }

  /** `~/.golta/state/default.txt`, the global default Go version. */
  function DefaultFile(home: Path): Path { StateDir(home) + ["default.txt"] }

  /** `~/.golta/versions/<version>`. */
  function VersionDir(home: Path, version: string): Path { Join(VersionsDir(home), version) }

  /** The project pin file of a directory. */
  function PinFile(dir: Path): Path { dir + [PinFileName] }

  function GoModFile(dir: Path): Path { dir + ["go.mod"] }

  function ExecutableName(windows: bool): string { if windows then "go.exe" else "go" }

  /** The binary exec, which and the shim start: `versions/<v>/bin/go`. */
  function BinPath(home: Path, version: string, windows: bool): Path {
    VersionDir(home, version) + ["bin", ExecutableName(windows)]
  }

  /** The binary run starts: `versions/<v>/go/bin/go`. */
  function RunBinPath(home: Path, version: string, windows: bool): Path {
    VersionDir(home, version) + ["go", "bin", ExecutableName(windows)]
  }

  /** The two binary layouts never name the same file for a non-empty run version
      (run refuses an empty one): run's path is longer. */
  lemma BinLayoutsDiffer(home: Path, v: string, w: string, windows: bool)
    requires w != ""
    ensures BinPath(home, v, windows) != RunBinPath(home, w, windows)
  {
    assert |RunBinPath(home, w, windows)| == |home| + 6;
  }
}
