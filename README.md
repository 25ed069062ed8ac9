# golta: version resolution and the toolchain lifecycle, in Dafny

golta is a Go version manager written in Rust. This project models its core:

- **Resolution.** How the CLI and the `go` shim decide which Go version is active:
  - the nearest `.golta.json` pin on the walk from the current directory to the root;
  - for the shim, the `go`/`toolchain` directives of a `go.mod` in the same walk;
  - the global default in `~/.golta/state/default.txt`.
- **Matching.** How an install spec ("latest" or an exact version) is matched against
  the download catalog.
- **Remote listings.** The cache policy of `list-remote` and the parsing of the module
  proxy's version list.
- **State transitions.** `install`, `uninstall`, `pin`, `unpin`, `default`, `exec`, `run`,
  `which` and `list`, as changes to a filesystem.

The filesystem is a map from paths (sequences of components) to directories and files
(`FileSystem.Tree`). Operations that change state are methods on a `Disk` object. Each
call makes one `std::fs` change and is specified by a pure function on trees. Every
command is a function from the tree and its inputs to a status, a new tree and the
lines it writes. A method performs the same steps one at a time and is proved equal
to that function. Lemmas then state the promises about each command:

- precedence (pin before go.mod before default; the nearest pin wins);
- error cases;
- idempotence (unpin, clear, install, uninstall);
- round trips (pin then resolve, set default then resolve, `tool@version` then parse);
- "nothing else changes".

Inputs the program gets from outside become parameters:

- the home directory, the current directory and environment variables;
- the JSON parser's verdict on a pin file (a `Decoder`);
- the fetched catalog or proxy list;
- the downloaded archive, already decoded into members;
- the exit status of a child process;
- the user's answer to the shim's install prompt;
- the pin lookup `uninstall` is handed, and the pin lookup and installed list `list` is handed.
  `list.rs:23` and `list.rs:30` compute these from the same disk with `find_pinned_go_version`
  and `get_installed_versions`, which are `PinLookup` and `InstalledVersions` here;
- the `read_dir` listing of `~/.golta/versions`, tied to the tree by `ListingOf`: every
  directory entry is a directory there, and every directory there is listed.

Version order in `list` is the Semantic Versioning 2.0.0 precedence `semver::Version`
uses. `SemVer` models parsing and comparison without build metadata, and its lemmas
prove the comparison a total order.

### Where the model follows the code rather than its tests

- **Uninstalling the default.** `uninstall` clears the global default when it names the
  version, and warns (`uninstall.rs:89-98`). The smoke tests expect a refusal instead
  (`src/crates/cli/tests/smoke/uninstall_test.rs:10-13`, `tests/smoke/smoke.rs:177-180`).
  The model removes the default file.
- **Confirmation message.** The unit test at `uninstall.rs:146` expects
  "Go 1.22.3 has been uninstalled.", but the code prints the tool name as given ("go").
  The model prints "go".
- **A failing pin lookup.** A go uninstall returns the lookup's error after a matching
  default has already been removed (`Uninstall.PinErrorKeepsVersion`).
- **Uninstalling a Go version named like a tool.** `go@air` names `versions/air`, which
  holds every installed `air` version (`Uninstall.GoDirCoversToolDirs`).
- **Binary layouts.** `run` starts `versions/<v>/go/bin/go`, while `exec`, `which` and the
  shim start `versions/<v>/bin/go` (`Layout.BinLayoutsDiffer`). `install` places the
  toolchain under `versions/<v>/go` (`Install.ExtractPlacesGoDir`), so a fresh install
  serves `run` but not `exec`, `which` or the shim (`Install.GoDirServesRunOnly`).
- **Prefix stripping.** `exec`, `which`, `pin`, `default` and `install` strip prefixes
  repeatedly (`trim_start_matches`). `run` and the shim's `toolchain` value strip one
  prefix once (`strip_prefix`) (`Run.RunStripsOnce`, `GoMod.ToolchainValue`).
- **Unreadable default file.** The CLI's resolver returns the read error; the shim
  treats the file as empty; `list` treats it as no default (`Shim.UnreadableDefaultDiffers`).
- **`list-remote` fallback.** When the fetch fails, the cache is shown even if it holds
  an empty list. A failed cache write is only a warning.
- **Two-field version names.** A name such as "1.21" is dropped by `list`, because
  `semver` needs three fields (`SemVer.TwoFieldsDoNotParse`).
- **`go@` alone.** With the active version "go@", `which` prints `versions/bin/go`, where
  `exec` refuses (`Which.WhichAgreesWithExec`).

## Model

| member | source | states |
|---|---|---|
| Strings.Trim | src/crates/cli/src/shared/active_version.rs:21 | `str::trim`: no whitespace is left at either end, and the result is no longer than the input |
| Strings.TrimSlice | src/crates/cli/src/shared/active_version.rs:21-22 | trim keeps a middle slice of the input and drops only whitespace around it; the result is empty exactly on a blank string |
| Strings.TrimEmpty | src/crates/cli/src/shared/active_version.rs:22 | a trimmed string is empty iff the input is all whitespace |
| Strings.TrimOfTrimmed | src/crates/cli/src/shared/active_version.rs:21 | trimming a string with no whitespace at either end gives it back |
| Strings.TrimStartDrops | src/crates/shim/main.rs:58 | `trim_start` keeps a suffix of the input and drops only whitespace before it |
| Strings.TrimEndDrops | src/crates/shim/main.rs:58 | `trim_end` keeps a prefix of the input and drops only whitespace after it |
| Strings.StripPrefix | src/crates/shim/main.rs:72 | `strip_prefix` succeeds iff the pattern starts the input, and the input is the pattern followed by the result |
| Strings.TrimStartMatches | src/crates/cli/src/cli/install.rs:245 | `trim_start_matches` leaves no leading occurrence of a non-empty pattern, and changes nothing when the input does not start with it |
| Strings.TrimStartMatchesSuffix | src/crates/cli/src/cli/install.rs:245 | `trim_start_matches` keeps a suffix of the input |
| Strings.TrimStartMatchesIdempotent | src/crates/cli/src/cli/exec.rs:33 | trimming a prefix repeatedly a second time changes nothing |
| Strings.StripOnceVersusRepeatedly | src/crates/cli/src/cli/run.rs:24-25 | stripping once and stripping repeatedly agree exactly when the rest does not start with the pattern again |
| Strings.IndexOf | src/crates/cli/src/cli/install.rs:179 | the index of the first occurrence of a character, or none iff it does not occur |
| Strings.SplitOnce | src/crates/cli/src/cli/install.rs:179 | `split_once('@')`: none iff there is no '@'; otherwise the input is `before + "@" + after` and `before` has no '@' |
| Strings.ContainsIff | src/crates/cli/src/cli/list_remote.rs:107 | `contains` holds exactly when the pattern occurs at some position |
| Strings.BeforeFirst | src/crates/shim/main.rs:58 | `split("//").next()`: the longest prefix with no "//" starting inside it, ending at the first "//" or at the end |
| Strings.DropCarriageReturn | src/crates/shim/main.rs:56 | dropping a "\r" adds no newline |
| Strings.Lines | src/crates/shim/main.rs:56 | `lines()`: no line contains a newline, and only the empty text has no lines |
| Strings.LinesRoundTrip | src/crates/shim/main.rs:56 | without carriage returns, writing the lines back, each followed by "\n", gives the text, with a final "\n" added when it had none |
| Strings.WordLength | src/crates/shim/main.rs:63 | the leading run of non-whitespace ends at whitespace or the end |
| Strings.SplitWhitespaceWords | src/crates/shim/main.rs:63 | every piece of `split_whitespace` is a non-empty run without whitespace, and a blank line yields no pieces |
| Strings.AsciiLower | src/crates/shim/main.rs:137 | `to_lowercase` on ASCII: each upper-case letter becomes lower case, and nothing else changes |
| FileSystem.ReadText | src/crates/cli/src/shared/active_version.rs:20 | in the model, `read_to_string` succeeds iff the path is a text file; a missing path is NotFound |
| FileSystem.Ancestry | src/crates/cli/src/cli/default.rs:44 | the directories `create_dir_all` needs are exactly the non-root prefixes of the path |
| FileSystem.DirsCreated | src/crates/cli/src/cli/default.rs:44 | in the model, `create_dir_all` fails iff a file stands on the way; otherwise it adds exactly the missing prefixes as directories and keeps the rest |
| FileSystem.FileRemoved | src/crates/cli/src/cli/unpin.rs:15 | in the model, `remove_file` succeeds iff the path is a file, and then removes exactly that entry |
| FileSystem.Pruned | src/crates/cli/src/cli/uninstall.rs:51 | the tree without a path and what lies below it; every other entry is kept |
| FileSystem.DirRemoved | src/crates/cli/src/cli/uninstall.rs:51 | in the model, `remove_dir_all` succeeds iff the path is a directory, and then removes it and everything below it, all at once |
| FileSystem.FileWritten | src/crates/cli/src/cli/pin.rs:41 | in the model, `write` succeeds iff the parent is a directory and the path is not one, and then sets exactly that file |
| FileSystem.RelocatedInjective | src/crates/cli/src/cli/install.rs:351 | a move sends different paths to different paths |
| FileSystem.RelocatedBack | src/crates/cli/src/cli/install.rs:351 | a moved path lies below the destination and maps back to its origin |
| FileSystem.Moved | src/crates/cli/src/cli/install.rs:351 | a moved tree keeps everything outside both ends, relocates everything below the source, and holds nothing else |
| FileSystem.Renamed | src/crates/cli/src/cli/install.rs:351 | in the model, `rename` succeeds iff the source exists, the destination is free, its parent is a directory and it is not below the source |
| FileSystem.Unpacked | src/crates/cli/src/cli/install.rs:328 | an unpacked member is placed at its path, and every other entry is kept |
| FileSystem.Disk.CreateDirAll | src/crates/cli/src/cli/install.rs:89 | the disk after `create_dir_all` is `DirsCreated`, or unchanged on failure |
| FileSystem.Disk.RemoveFile | src/crates/cli/src/cli/unpin.rs:15 | the disk after `remove_file` is `FileRemoved`, or unchanged on failure |
| FileSystem.Disk.RemoveDirAll | src/crates/cli/src/cli/uninstall.rs:51 | the disk after `remove_dir_all` is `DirRemoved`, or unchanged on failure |
| FileSystem.Disk.WriteFile | src/crates/cli/src/cli/pin.rs:41 | the disk after `write` is `FileWritten`, or unchanged on failure |
| FileSystem.Disk.Rename | src/crates/cli/src/cli/install.rs:351 | the disk after `rename` is `Renamed`, or unchanged on failure |
| FileSystem.Disk.Unpack | src/crates/cli/src/cli/install.rs:328 | the disk after unpacking one member is `Unpacked`, or unchanged on failure |
| Layout.BinLayoutsDiffer | src/crates/cli/src/cli/run.rs:51-61 | run's binary `versions/<v>/go/bin/go` is never the binary exec, which and the shim use, `versions/<v>/bin/go` |
| PinnedVersion.ExtractGoVersion | src/crates/cli/src/shared/pinned_version.rs:53-59 | invalid JSON is an error; otherwise the result is the "go" member iff it is a string |
| PinnedVersion.PinAt | src/crates/cli/src/shared/pinned_version.rs:39-45 | a directory without a pin file offers nothing; an unreadable pin file is its read error; a readable one is `ExtractGoVersion` of its text |
| PinnedVersion.FindPinnedGoVersionFrom | src/crates/cli/src/shared/pinned_version.rs:33-51 | the loop that pops `current_dir` returns the search result `PinLookup` |
| PinnedVersion.PinLookupFindsNearest | src/crates/cli/src/shared/pinned_version.rs:37-50 | a found pin names a string "go" in the directory it comes from, and no closer directory offers one |
| PinnedVersion.NearestPinIsFound | src/crates/cli/src/shared/pinned_version.rs:37-50 | conversely, the nearest directory whose pin names a version is the one found, with its pin file's path |
| PinnedVersion.PinLookupNone | src/crates/cli/src/shared/pinned_version.rs:47-49 | the search finds nothing iff no directory from the start to the root offers a pin (pins without a string "go" are skipped) |
| PinnedVersion.PinLookupFails | src/crates/cli/src/shared/pinned_version.rs:40-42 | a failed search failed at one directory of the walk, and nothing closer offered a pin; invalid JSON stops it |
| PinnedVersion.PinLookupFrame | src/crates/cli/src/shared/pinned_version.rs:39-41 | only the pin files on the walk matter to the search |
| ActiveVersion.DefaultVersion | src/crates/cli/src/shared/active_version.rs:12-27 | no home, a missing file or a blank file means no default; an unreadable file is an error; otherwise the trimmed, non-empty content |
| ActiveVersion.FindActiveGoVersion | src/crates/cli/src/shared/active_version.rs:6-28 | a pin lookup error propagates; a found pin wins; otherwise the default |
| ActiveVersion.PinHidesDefault | src/crates/cli/src/shared/active_version.rs:8-10 | with a pin, the answer is the pinned version, whatever the default file holds or whether it exists |
| ActiveVersion.PinFileIsNotDefaultFile | src/crates/cli/src/shared/active_version.rs:17 | no pin file is the default file |
| LocalVersions.Kept | src/crates/cli/src/shared/local_versions.rs:17-19 | an entry is kept iff it is a directory with a UTF-8 name, and then it gives that name |
| LocalVersions.InstalledVersions | src/crates/cli/src/shared/local_versions.rs:6-24 | no home is an error; a missing versions directory gives an empty list; a listing error propagates |
| LocalVersions.GetInstalledVersions | src/crates/cli/src/shared/local_versions.rs:6-24 | the loop that pushes names returns `InstalledVersions` |
| LocalVersions.InstalledNamesFailure | src/crates/cli/src/shared/local_versions.rs:15-17 | the first failing entry decides the error, whatever follows it |
| LocalVersions.InstalledNamesMembers | src/crates/cli/src/shared/local_versions.rs:14-23 | a name is listed iff some entry is a directory with that UTF-8 name |
| LocalVersions.InstalledNamesAppend | src/crates/cli/src/shared/local_versions.rs:14-23 | names keep the listing order: two runs of entries give the first run's names, then the second's |
| LocalVersions.InstalledIffDir | src/crates/cli/src/shared/local_versions.rs:6-24 | when the listing describes the tree and reads without error, a non-empty name is installed iff the versions directory exists and `~/.golta/versions/<name>` is a directory |
| LocalVersions.InstalledNamesAreDirs | src/crates/cli/src/shared/local_versions.rs:17-19 | every listed name is a directory under `~/.golta/versions`, auxiliary-tool directories included |
| Pin.UnescapeOneChar | src/crates/cli/src/cli/pin.rs:41 | reading back one character as serde_json escapes it gives that character |
| Pin.EscapedRoundTrip | src/crates/cli/src/cli/pin.rs:41 | the JSON string literal serde_json writes for a version reads back as that version |
| Pin.PinRequest | src/crates/cli/src/cli/pin.rs:18-33 | no "go@" prefix is a format error; the version (prefix trimmed repeatedly) is accepted iff it is among the installed names; a listing error propagates |
| Pin.PinGoVersion | src/crates/cli/src/cli/pin.rs:18-46 | a refused pin writes nothing; an accepted one writes exactly `<cwd>/.golta.json` with `{"go": version}` |
| Pin.PinRoundTrip | src/crates/cli/src/cli/pin.rs:35-41 | after pinning, the search from the same directory returns that version and that file, and it is the active version |
| Pin.PinAcceptsExactlyInstalled | src/crates/cli/src/cli/pin.rs:19-33 | when the listing describes the tree and reads without error, `go@<v>` with a non-empty v is accepted iff `~/.golta/versions/<v>` is a directory |
| Pin.PinnedVersionIsInstalled | src/crates/cli/src/cli/pin.rs:26-33 | a version pin accepts names a directory under `~/.golta/versions` |
| Unpin.Unpinned | src/crates/cli/src/cli/unpin.rs:11-22 | only `<cwd>/.golta.json` may go away; on success it is gone; an absent pin file is success with no change |
| Unpin.UnpinGo | src/crates/cli/src/cli/unpin.rs:11-22 | the disk after `unpin_go` is `Unpinned`, and it prints which case applied |
| Unpin.UnpinIdempotent | src/crates/cli/src/cli/unpin.rs:14-19 | unpinning twice is unpinning once |
| Unpin.UnpinFallsBack | src/crates/cli/tests/smoke/pin_test.rs:26-34 | after unpin, resolution from that directory is the parent's, or the default at the root |
| Default.SetRequest | src/crates/cli/src/cli/default.rs:25-42 | no "go@" prefix is rejected; the version is accepted iff it is installed; a listing error propagates |
| Default.DefaultApplied | src/crates/cli/src/cli/default.rs:12-52 | no home is an error; a refusal changes nothing; every entry but the default file is kept; Clear adds nothing and on success the default file is gone; Set adds only the default file and the state directory's missing ancestors, and on success the file reads as the version with `go@` trimmed |
| Default.HandleDefault | src/crates/cli/src/cli/default.rs:12-52 | the disk after `handle_default` is `DefaultApplied`, and it prints the line for each case |
| Default.ClearIdempotent | src/crates/cli/src/cli/default.rs:17-24 | clearing twice is clearing once, and afterwards there is no default |
| Default.SetAcceptsExactlyInstalled | src/crates/cli/src/cli/default.rs:27-42 | when the listing describes the tree and reads without error, `go@<v>` with a non-empty v is accepted iff `~/.golta/versions/<v>` is a directory |
| Default.SetRoundTrip | src/crates/cli/src/cli/default.rs:44-45 | after Set, the default file holds exactly the installed version; the resolver reads it back trimmed, and without a pin it is the active version |
| Default.SetRefusalWritesNothing | src/crates/cli/src/cli/default.rs:27-42 | a Set with a bad prefix or an uninstalled version changes nothing |
| Process.ExitCodeOf | src/crates/cli/src/cli/exec.rs:74-77 | a spawn error propagates; a child without an exit code counts as 1 |
| Process.GoRunner.Run | src/crates/cli/src/cli/exec.rs:73-78 | the runner records the path and arguments it was given and returns the child's exit code |
| Exec.ExecVersion | src/crates/cli/src/cli/exec.rs:25-37 | a tool other than go is refused; the version is the active one, trimmed, with leading "go@" removed, and an empty one is an error |
| Exec.GoBinaryPath | src/crates/cli/src/cli/exec.rs:55-64 | exec's binary is `versions/<v>/bin/go`, with "go@" trimmed again |
| Exec.ExecGo | src/crates/cli/src/cli/exec.rs:19-41 | when a check fails the runner is not used; otherwise it receives the binary path and the arguments unchanged, and its exit code is the result |
| Exec.ExecFollowsPin | src/crates/cli/src/cli/exec.rs:51-53 | with a pin, exec asks for the pinned version, whatever the default says |
| Run.RunVersion | src/crates/cli/src/cli/run.rs:24-30 | the argument must be "go@" followed by a non-empty version, and exactly one "go@" is removed |
| Run.RunGoBinaryPath | src/crates/cli/src/cli/run.rs:51-61 | run's binary is `versions/<v>/go/bin/go` |
| Run.RunGo | src/crates/cli/src/cli/run.rs:18-41 | format errors and a missing binary are refused without running anything; otherwise the runner gets the path and the arguments unchanged |
| Run.RunStripsOnce | src/crates/cli/src/cli/run.rs:24-25 | for every v, `go@go@v` asks run for `go@v`, while repeated stripping gives v with every leading `go@` removed, so they never agree |
| Which.WhichGo | src/crates/cli/src/cli/which.rs:11-36 | a tool other than go, no active version or an empty one is an error; otherwise the path `versions/<active without leading go@>/bin/go` |
| Which.WhichAgreesWithExec | src/crates/cli/src/cli/which.rs:25-32 | for an active version without surrounding whitespace, which prints the binary exec runs; for "go@" alone which prints a path where exec refuses |
| Which.WhichFollowsPin | src/crates/cli/src/cli/which.rs:17 | with a pin, which prints the pinned version's binary |
| GoMod.Directives | src/crates/shim/main.rs:56 | one directive per go.mod line |
| GoMod.ReadLine | src/crates/shim/main.rs:57-76 | one line as the loop reads it: comment cut at "//", trimmed, lines of fewer than two words skipped, a toolchain value losing one "go" |
| GoMod.ParseGoMod | src/crates/shim/main.rs:53-82 | the loop over the lines returns the last toolchain value, else the last go value |
| GoMod.LastValueNext | src/crates/shim/main.rs:68-76 | a line naming a directive overrides the value read so far; any other line leaves it |
| GoMod.LastValueFrom | src/crates/shim/main.rs:56-77 | a directive's value comes from a line that sets it, and no later line sets it |
| GoMod.LastValueIs | src/crates/shim/main.rs:56-77 | conversely, the last line setting a directive decides it, and a directive no line sets is absent |
| GoMod.LastValueSet | src/crates/shim/main.rs:68-76 | a directive some line sets has a value |
| GoMod.ToolchainWins | src/crates/shim/main.rs:79-82 | with a toolchain directive anywhere, the go directives do not matter |
| GoMod.LastGoLineWins | src/crates/shim/main.rs:69 | without a toolchain directive, the last go directive decides |
| GoMod.ToolchainValue | src/crates/shim/main.rs:70-74 | for every v, `toolchain go<v>` names v (one "go" removed); a toolchain value not starting with "go" is kept whole, as is every `go` value |
| Shim.WalkFindsNearest | src/crates/shim/main.rs:38-88 | a version a walk finds comes from the nearest directory offering one |
| Shim.NearestIsFound | src/crates/shim/main.rs:38-88 | conversely, the nearest directory offering a version decides the walk |
| Shim.ShimDefault | src/crates/shim/main.rs:90-99 | the shim's default is the trimmed file when it is readable and not blank; otherwise the "No Go version is set" error naming pin and default |
| Shim.ShimVersion | src/crates/shim/main.rs:36-100 | a walk error propagates; a found version wins; otherwise the default |
| Shim.FindGoVersion | src/crates/shim/main.rs:36-100 | the loop that reads pins and go.mod files, popping `current_dir`, returns `ShimVersion` |
| Shim.ShimWalkFindsNearest | src/crates/shim/main.rs:39-87 | the version the shim's walk finds comes from the nearest directory whose pin or go.mod offers one |
| Shim.NearestStepIsFound | src/crates/shim/main.rs:39-87 | conversely, that nearest directory decides, so a closer go.mod wins over a farther pin, and the default is not read |
| Shim.PinBeforeGoMod | src/crates/shim/main.rs:40-52 | in one directory, a pin naming a version hides whatever its go.mod says |
| Shim.ShimWalkWithoutGoMod | src/crates/shim/main.rs:39-48 | without go.mod files on the walk, the shim's walk is the CLI's pin search; an unparseable pin is an error in both |
| Shim.ShimAgreesWithCli | src/crates/shim/main.rs:90-99 | without go.mod files and with a readable or absent default, the shim resolves exactly as the CLI |
| Shim.UnreadableDefaultDiffers | src/crates/shim/main.rs:92 | an unreadable default file is an error for the CLI, but "no version set" in the shim |
| Shim.Launched | src/crates/shim/main.rs:152-172 | the binary is launched with the arguments and GOROOT two levels up; on Unix success leaves no exit code, elsewhere a missing code counts as 1 |
| Shim.ExecuteGo | src/crates/shim/main.rs:103-173 | a present binary is launched at once; in CI without auto-install a missing one is an error; otherwise `golta install <version>` runs iff auto-install is on or the answer is "", "y" or "yes", and launching follows only a successful install; a launch's result is the child's (`Launched`); a lookup error of the answer, a refused answer and a failed or erroring install each give their own error; the prompt is the only thing written to stderr |
| Shim.RunShim | src/crates/shim/main.rs:19-33 | no home is an error; a resolution error propagates; otherwise the resolved version is executed |
| Shim.ExitCode | src/crates/shim/main.rs:11-16 | any error exits with 1; otherwise the child's code |
| Shim.InstalledPinnedVersionLaunches | src/crates/shim/main.rs:103-113 | with the pinned version's binary present, the shim launches it without prompting or installing |
| Install.FirstWhere | src/crates/cli/src/cli/install.rs:241-243 | `find`: the first index satisfying the predicate, or none iff no element does |
| Install.FirstGoLine | src/crates/cli/src/cli/install.rs:395-398 | the first line starting with "go ", without that prefix and trimmed; none iff no line starts so |
| Install.ReadGoModVersion | src/crates/cli/src/cli/install.rs:392-399 | no current directory or an unreadable go.mod gives nothing; otherwise its first "go " line |
| Install.ParseToolAndVersion | src/crates/cli/src/cli/install.rs:166-184 | bare "go" takes go.mod's version or "latest"; "go@mod" needs go.mod's version; otherwise split at the first '@', and a bare tool gets "latest" |
| Install.SplitAtFirstAt | src/crates/cli/src/cli/install.rs:179-181 | the first '@' of `tool@version` is the one after the tool name |
| Install.ParseRoundTrip | src/crates/cli/src/cli/install.rs:179-181 | writing `tool@version` and parsing it gives the pair back |
| Install.ToolInfo | src/crates/cli/src/cli/install.rs:186-201 | each known tool's package path lies inside its module path |
| Install.ToolInfoKnown | src/crates/cli/src/cli/install.rs:186-201 | the tools known are exactly gopls, dlv, air, staticcheck and golangci-lint |
| Install.ResolveFromList | src/crates/cli/src/cli/install.rs:235-264 | "latest" is the first stable entry without leading "go", and an error iff none is stable; an exact spec succeeds iff some entry matches it, returns the spec, and otherwise names it in the error |
| Install.DownloadUrlDeterminesVersion | src/crates/cli/src/cli/install.rs:270-275 | the URL `https://golang.org/dl/go<v>.<os_arch>.<format>` determines the version |
| Install.UnpackedAllStops | src/crates/cli/src/cli/install.rs:326-331 | the first failing member stops the unpacking; later members change nothing |
| Install.UnpackedAllKeeps | src/crates/cli/src/cli/install.rs:326-331 | unpacking below `go_temp` leaves everything not strictly below it |
| Install.PlacedMoves | src/crates/cli/src/cli/install.rs:351 | a successful placement has moved `go_temp/go` to `go` |
| Install.PlacedKeeps | src/crates/cli/src/cli/install.rs:333-351 | placement leaves everything outside `go_temp/go` and `go` |
| Install.PlacedRefuses | src/crates/cli/src/cli/install.rs:343-349 | placement refuses an existing `go` and then changes nothing |
| Install.UnpackMembers | src/crates/cli/src/cli/install.rs:326-331 | the unpacking loop on the disk does what `UnpackedAll` describes |
| Install.ExtractTarGz | src/crates/cli/src/cli/install.rs:307-353 | extraction on the disk does what `Extracted` describes |
| Install.ExtractPlacesGoDir | src/crates/cli/src/cli/install.rs:333-352 | a successful extraction leaves `go` present and `go_temp/go` gone |
| Install.GoDirServesRunOnly | src/crates/cli/src/cli/install.rs:333-352 | the `go` directory extraction places holds `run`'s binary path, and `exec`/`which`/shim's `bin/go` is not below it |
| Install.ExtractKeepsExistingGoDir | src/crates/cli/src/cli/install.rs:343-349 | an existing `go` directory is never overwritten: extraction fails and everything below it is kept |
| Install.ExtractKeepsInstallDir | src/crates/cli/src/cli/install.rs:317-351 | extraction keeps the install directory itself |
| Install.InstallGo | src/crates/cli/src/cli/install.rs:58-109 | `install_go` on the disk does what `GoInstalled` describes: status, tree, output and the URL downloaded |
| Install.InstallVersion | src/crates/cli/src/cli/install.rs:74-108 | the download-and-extract part on the disk does what `VersionInstalled` describes |
| Install.AlreadyInstalledSkips | src/crates/cli/src/cli/install.rs:76-81 | an existing version directory means success, no download and no change |
| Install.InstallTwiceSkips | src/crates/cli/src/cli/install.rs:76-81 | installing the same spec again after a success downloads nothing and changes nothing |
| Install.VersionInstalledKeepsDir | src/crates/cli/src/cli/install.rs:89-107 | a successful install leaves the version directory in place |
| Install.ToolInstalled | src/crates/cli/src/cli/install.rs:111-164 | an unknown tool fails before anything else; the proxy is asked iff the tool is known and the version is "latest"; when a command ran, the install succeeds iff the child ran and succeeded |
| Install.ToolVersionInstalled | src/crates/cli/src/cli/install.rs:128-163 | `go install` runs iff the version's `bin` directory is missing; an existing one gives success with only "<tool> <v> is already installed." and no command; after a command, success iff the child ran and succeeded; a child that could not start fails after only the "Installing" line |
| Install.ToolInstallCommand | src/crates/cli/src/cli/install.rs:135-155 | the command run is `go install <package>@<version>` with GOBIN set to the version's `bin` directory, exactly when the tool is known, the version resolved and `bin` missing; with `bin` present the install succeeds with "already installed" and runs nothing |
| ListRemote.CacheFileNameInjective | src/crates/cli/src/cli/list_remote.rs:150-157 | different tools never share a cache file |
| ListRemote.CacheRead | src/crates/cli/src/cli/list_remote.rs:162-170 | a missing cache file is no cache; an unreadable one is an error; otherwise the stored list |
| ListRemote.Cached | src/crates/cli/src/cli/list_remote.rs:54 | an unreadable cache counts as no cache |
| ListRemote.VersionsCache.ReadCache | src/crates/cli/src/cli/list_remote.rs:162-170 | `read_cache` returns `CacheRead` of the stored file |
| ListRemote.VersionsCache.WriteCache | src/crates/cli/src/cli/list_remote.rs:172-179 | each write is counted; it replaces the stored list, or reports the failure and keeps it |
| ListRemote.VersionLines | src/crates/cli/src/cli/list_remote.rs:123-130 | one line per version in input order: the number without leading "go", with " (unstable)" iff not stable |
| ListRemote.Rendered | src/crates/cli/src/cli/list_remote.rs:120-138 | a header, the version lines in order, then the install hint |
| ListRemote.RenderVersions | src/crates/cli/src/cli/list_remote.rs:120-138 | the loop writing the lines produces `Rendered` |
| ListRemote.Listed | src/crates/cli/src/cli/list_remote.rs:43-96 | equal newest entries show the cache; otherwise a fetched list is shown (with a warning if the cache write fails); a fetch error falls back to any readable cache and propagates only without one |
| ListRemote.ListRemoteVersions | src/crates/cli/src/cli/list_remote.rs:43-96 | on a cache object: output and result are `Listed`, and the cache is written exactly once when the fetched list is shown, and never otherwise |
| ListRemote.ReusedCacheIsCurrent | src/crates/cli/src/cli/list_remote.rs:59-74 | a cache shown after a successful fetch starts with the newest fetched version |
| ListRemote.FetchSucceeds | src/crates/cli/src/cli/list_remote.rs:58-82 | a successful fetch never fails the command, even when the cache write fails, and shows the fetched or the cached list |
| ListRemote.UnreadableCacheIsNoCache | src/crates/cli/src/cli/list_remote.rs:54 | an unreadable cache lists exactly as no cache |
| ListRemote.RefreshThenReuse | src/crates/cli/src/cli/list_remote.rs:59-81 | after a refresh of a writable cache, the same fetch result is answered from the cache |
| ListRemote.ListTwice | src/crates/cli/src/cli/list_remote.rs:59-81 | two listings with the same fetch result write at most once, and the second answers from the cache |
| ListRemote.FetchFailure | src/crates/cli/src/cli/list_remote.rs:83-94 | a fetch failure succeeds iff a readable cache exists (even an empty one), and the fetch error is returned otherwise |
| ListRemote.ProxyEntry | src/crates/cli/src/cli/list_remote.rs:105-112 | an entry's version is the trimmed line, non-empty iff the line is not blank, and stable iff it contains none of "rc", "beta", "alpha" |
| ListRemote.ProxyEntries | src/crates/cli/src/cli/list_remote.rs:102-113 | no more entries than lines |
| ListRemote.ProxyLineKept | src/crates/cli/src/cli/list_remote.rs:104 | a non-blank proxy line gives an entry |
| ListRemote.ProxyEntriesKept | src/crates/cli/src/cli/list_remote.rs:102-113 | blank lines are dropped, every non-blank line gives an entry, and each entry is classified by the stability rule |
| ListRemote.ProxyEntriesNext | src/crates/cli/src/cli/list_remote.rs:104-112 | one more line adds its entry at the end iff it is not blank |
| ListRemote.Reversed | src/crates/cli/src/cli/list_remote.rs:116 | position i of the result holds position n-1-i of the input |
| ListRemote.ReversedTwice | src/crates/cli/src/cli/list_remote.rs:116 | reversing twice gives the list back |
| ListRemote.ReverseInPlace | src/crates/cli/src/cli/list_remote.rs:116 | `Vec::reverse` in place: the array afterwards is its old contents reversed |
| ListRemote.ParseProxyList | src/crates/cli/src/cli/list_remote.rs:102-117 | the parsed list is the non-blank lines' entries, newest (last) first |
| ListRemote.ProxyNewestFirst | src/crates/cli/src/cli/list_remote.rs:115-116 | the proxy's last non-blank line is the first version listed |
| ListRemote.ListPlan | src/crates/cli/src/cli/list_remote.rs:9-40 | the tool defaults to go; no home is an error; go lists the catalog as "Go", a known tool its module's proxy list, and an unknown tool is an error; each has its own cache file |
| SemVer.ParseNumber | src/crates/cli/src/cli/list.rs:35 | a numeric field is non-empty decimal digits without a leading zero |
| SemVer.NatDigits | src/crates/cli/src/cli/list.rs:35 | the canonical decimal form is digits, with a leading zero only for 0 |
| SemVer.NatDigitsRoundTrip | src/crates/cli/src/cli/list.rs:35 | the canonical form of a number parses back to it |
| SemVer.SplitAll | src/crates/cli/src/cli/list.rs:35 | splitting gives at least one piece, none containing the separator |
| SemVer.SplitAllPieces | src/crates/cli/src/cli/list.rs:35 | a piece followed by the separator splits off as the first piece |
| SemVer.ParseIdentifier | src/crates/cli/src/cli/list.rs:35 | a pre-release identifier is non-empty ASCII alphanumerics or '-'; a text identifier has a non-digit |
| SemVer.ParseIdentifiers | src/crates/cli/src/cli/list.rs:35 | one identifier per dot-separated part |
| SemVer.ParseVersion | src/crates/cli/src/cli/list.rs:35 | a version string with build metadata is not accepted |
| SemVer.ReleaseParses | src/crates/cli/src/cli/list.rs:35 | `MAJOR.MINOR.PATCH` written canonically parses to its three numbers |
| SemVer.TwoFieldsDoNotParse | src/crates/cli/src/cli/list.rs:35 | no name of two parts without '.' or '-', joined by a '.' (Go's two-field releases such as "1.21"), is a version |
| SemVer.CompareText | src/crates/cli/src/cli/list.rs:39 | text comparison answers -1, 0 or 1 |
| SemVer.CompareIdentifiers | src/crates/cli/src/cli/list.rs:39 | identifier-list comparison answers -1, 0 or 1 |
| SemVer.Compare | src/crates/cli/src/cli/list.rs:39 | version comparison answers -1, 0 or 1 |
| SemVer.CompareTextFlip | src/crates/cli/src/cli/list.rs:39 | text comparison is antisymmetric and level only for equal texts |
| SemVer.CompareTextTransitive | src/crates/cli/src/cli/list.rs:39 | text comparison is transitive |
| SemVer.CompareIdentifierFlip | src/crates/cli/src/cli/list.rs:39 | identifier comparison is antisymmetric and level only for equal identifiers |
| SemVer.CompareIdentifierTransitive | src/crates/cli/src/cli/list.rs:39 | identifier comparison is transitive |
| SemVer.CompareIdentifiersFlip | src/crates/cli/src/cli/list.rs:39 | identifier-list comparison is antisymmetric and level only for equal lists |
| SemVer.CompareIdentifiersTransitive | src/crates/cli/src/cli/list.rs:39 | identifier-list comparison is transitive |
| SemVer.CompareFlip | src/crates/cli/src/cli/list.rs:39 | version precedence is antisymmetric, and only equal versions are level |
| SemVer.CompareTransitive | src/crates/cli/src/cli/list.rs:39 | version precedence is transitive |
| SemVer.PreReleaseFirst | src/crates/cli/src/cli/list.rs:39 | a pre-release sorts before its release, which sorts before the next patch's pre-release |
| List.DigitsEnd | src/crates/cli/src/cli/list.rs:80 | `\d+` from a position: the run of ASCII digits ends at a non-digit or the end |
| List.DigitsEndIs | src/crates/cli/src/cli/list.rs:80 | a digit run is determined by its digits and what follows them |
| List.GoPreRelease | src/crates/cli/src/cli/list.rs:80-84 | a match of `^(\d+\.\d+)(rc\|beta)(\d+)$` splits the name into its three captures |
| List.GoPreReleaseComplete | src/crates/cli/src/cli/list.rs:80-81 | every name the expression matches is recognised, with those captures |
| List.KindPrefix | src/crates/cli/src/cli/list.rs:80 | the pre-release kind is recognised by its prefix, and the number follows it |
| List.NormalizeGoVersion | src/crates/cli/src/cli/list.rs:76-89 | a match becomes `M.m.0-<kind>N`; a name is unchanged iff it does not match |
| List.Parsed | src/crates/cli/src/cli/list.rs:31-37 | the entries are exactly the names the parser accepts, each with its parsed version |
| List.InsertPos | src/crates/cli/src/cli/list.rs:39 | the place after the last entry not above the new one |
| List.Insert | src/crates/cli/src/cli/list.rs:39 | inserting adds exactly the new entry |
| List.InsertSorted | src/crates/cli/src/cli/list.rs:39 | inserting into a sorted list keeps it sorted |
| List.InsertionSorted | src/crates/cli/src/cli/list.rs:39 | `sort_by` on versions: ascending, and a permutation of the entries |
| List.JoinComma | src/crates/cli/src/cli/list.rs:64 | `join(", ")` of one or two tags |
| List.TagsJoined | src/crates/cli/src/cli/list.rs:48-65 | the tags collected ("default" then "pinned", each when it applies) print as the parenthesised suffix |
| List.ListLine | src/crates/cli/src/cli/list.rs:49-67 | a version's line is "*" iff it is the active version (" " otherwise), the name, then its tags |
| List.ListedDefault | src/crates/cli/src/cli/list.rs:19-21 | the default as `list` reads it: the trimmed file, or none iff it cannot be read |
| List.EntryLines | src/crates/cli/src/cli/list.rs:46-68 | one line per entry, in order |
| List.EntryLinesNext | src/crates/cli/src/cli/list.rs:46-68 | one more entry adds its line at the end |
| List.ListedGo | src/crates/cli/src/cli/list.rs:14-71 | the lookups' errors in the source's order; on success the header, then "No Go versions installed" or one line per parsed version |
| List.PrintEntries | src/crates/cli/src/cli/list.rs:46-68 | the printing loop produces `EntryLines` |
| List.ListGo | src/crates/cli/src/cli/list.rs:14-71 | `list_go` step by step does what `ListedGo` with `VersionOf` describes |
| List.ListedInOrder | src/crates/cli/src/cli/list.rs:31-68 | every parsing name is listed once, in ascending version order, each on its `ListLine` |
| List.PinnedIsStarred | src/crates/cli/src/cli/list.rs:49-60 | the pinned version is starred and tagged "pinned" (after "default" when it is both) |
| List.DefaultStarredOnlyWithoutPin | src/crates/cli/src/cli/list.rs:26 | the default is starred iff nothing is pinned, and is tagged "default" |
| List.ListAgreesWithActive | src/crates/cli/src/cli/list.rs:26 | with a readable non-blank or absent default, `list` stars the version the CLI calls active |
| List.SortedEntriesHold | src/crates/cli/src/cli/list.rs:30-39 | a name `semver` accepts is among the sorted entries (any reordering of the parsed ones) iff it is among the installed names |
| List.ListedFromTree | src/crates/cli/src/cli/list.rs:23-70 | handed the installed list computed from the disk, `list` succeeds and shows a semver name, on its `ListLine`, iff `~/.golta/versions/<name>` is a directory |
| List.MajorMinorIs | src/crates/cli/src/cli/list.rs:80 | any two non-empty digit runs joined by '.' match `\d+\.\d+` |
| List.NormalizePreRelease | src/crates/cli/src/cli/list.rs:77-85 | for all digit runs M, m, n and kind rc or beta, `M.m<kind>n` becomes `M.m.0-<kind>n` (e.g. "1.3rc1" to "1.3.0-rc1") |
| List.ReleaseNameUnchanged | src/crates/cli/src/cli/list.rs:86-88 | every three-field name `M.m.p` of digit runs is returned unchanged |
| Uninstall.ParseToolVersion | src/crates/cli/src/cli/uninstall.rs:58-65 | success splits at the first '@' with both parts non-empty; otherwise the "Invalid format" error |
| Uninstall.ParseToolVersionComplete | src/crates/cli/src/cli/uninstall.rs:58-65 | every `tool@version` with non-empty parts and no '@' in the tool parses back |
| Uninstall.DefaultFilesApart | src/crates/cli/src/cli/uninstall.rs:67-81 | a tool's default file is never the Go default file, nor inside any version directory |
| Uninstall.GoDirCoversToolDirs | src/crates/cli/src/cli/uninstall.rs:69-73 | the Go version directory named like a tool holds that tool's version directories |
| Uninstall.DefaultCleared | src/crates/cli/src/cli/uninstall.rs:83-103 | a default whose trimmed content is the version is removed, with a warning; any other default is left alone; since the model's `remove_file` cannot fail on an existing file, the model's step never fails |
| Uninstall.PinCheck | src/crates/cli/src/cli/uninstall.rs:105-122 | a lookup error propagates; the warning appears iff the pinned version is the target, and names the pin file |
| Uninstall.Uninstalled | src/crates/cli/src/cli/uninstall.rs:23-56 | a parse error changes nothing; the command only ever removes entries |
| Uninstall.UninstallSteps | src/crates/cli/src/cli/uninstall.rs:33-38 | a version that is not installed is an error naming tool and version, and nothing changes |
| Uninstall.UninstallStepsEffect | src/crates/cli/src/cli/uninstall.rs:33-56 | in the model, success iff the version directory is a directory (and for go the pin lookup works); then it and all below it are gone, the default is gone iff it named the version, everything else is kept, and the output is the warnings, then the confirmation |
| Uninstall.UninstallTool | src/crates/cli/src/cli/uninstall.rs:23-56 | `uninstall_tool` on the disk does what `Uninstalled` describes |
| Uninstall.UninstallVersion | src/crates/cli/src/cli/uninstall.rs:34-55 | the steps after parsing, on the disk, do what `UninstallSteps` describes |
| Uninstall.ClearDefaultIfMatches | src/crates/cli/src/cli/uninstall.rs:83-103 | `clear_default_if_matches` on the disk does what `DefaultCleared` describes |
| Uninstall.PinErrorKeepsVersion | src/crates/cli/src/cli/uninstall.rs:40-44 | a failing pin lookup stops a go uninstall before the version directory is touched, after a matching default was cleared |
| Uninstall.UninstallTwice | src/crates/cli/src/cli/uninstall.rs:36-38 | uninstalling again reports the version as not installed and changes nothing |

## Left out

- Network I/O is not modelled: downloading archives, fetching the catalog and the proxy's latest version and version list. The fetched catalog, the proxy's answers and the downloaded archive are parameters.
- Archive decoding is not modelled: gzip, tar and zip bytes. A download is already a sequence of members, or an undecodable archive.
- The Windows `extract_zip` path is left out. Only the tar.gz extraction with its `go_temp`-to-`go` placement is modelled.
- Child processes are not started. `Command::status`, Unix `exec` and `golta install` are left out; their exit status is a parameter. The shim's stdin prompt answer is a parameter.
- serde is not modelled. A pin file's parse is a `Decoder` parameter. `PinFileText` and `EscapedRoundTrip` model only the string literal serde_json writes. The remote-versions cache file is a `CacheFile` value (absent, unparsable or a stored list), not JSON text.
- Errors are values, not their `Display` text. `list-remote`'s two notices carry the error itself.
- The home directory, the current directory and the `CI`/`GOLTA_AUTO_INSTALL` variables are parameters. So are the platform (`os_arch`, archive format, Windows or Unix).
- A failing write to standard output is not modelled; the writer is assumed to succeed.
- Progress bars and spinners are left out.
- CLI wiring, completions, setup and the `os_info` constants are left out.
- The tree has no permissions and no I/O failures. Each `std::fs` call fails only on the structural conditions its function states, and `remove_dir_all` removes everything or nothing, never part of a tree. So in the model `clear_default_if_matches` never fails, and an uninstall succeeds whenever the version directory is a directory.
- A failing `env::current_dir()` is not modelled (`pinned_version.rs:28`, `pin.rs:35`, `unpin.rs:12`, shim `main.rs:20`): the current directory is always a path. Install's `current_dir().ok()?` (`install.rs:393`) is modelled, as an absent directory.
- Paths are sequences of components, so separators and `Display` are Unix-style. A path component that is itself a separator is not modelled.
- Tool and version strings are taken as single path components (`FileSystem.Join`). `Path::join` does not: an absolute string replaces the whole path, and `..` or an embedded `/` moves up or down the tree. `uninstall` and a tool `install` (its version, `install.rs:128-132`) do not validate the string; `pin` and `default` accept only names listed in `~/.golta/versions`, and a Go `install` only catalog versions. So `golta uninstall go@../state` removes `~/.golta/state` in the program, and `go@..` removes `~/.golta`. The model treats `../state` as one directory name and reports it not installed. `Uninstall.UninstallStepsEffect`, `Uninstall.DefaultFilesApart` and the other layout lemmas hold only for names with no `/`, not `.` or `..`, and not absolute.
- Install.ToolInstalled: the "latest" tool version is the proxy's answer, passed as a parameter.
- SemVer.ParseVersion: build metadata ("+...") is refused rather than parsed. Numbers are unbounded, where `semver` limits them to u64.
- The `read_dir` listing is a parameter. `ListingOf` ties its directory entries to the tree, but the order of entries, per-entry errors and entries that are not directories are not tied to it.
- Strings.AsciiLower: lower-cases ASCII letters only, where the shim calls Unicode `to_lowercase`. No other character lower-cases to 'y', 'e' or 's', so the prompt's accept test against "", "y" and "yes" comes out the same.
- List.DigitsEnd: `\d` is read as ASCII digits only, where the `regex` crate also accepts other Unicode decimal digits.
- List.InsertionSorted: states sorted and a permutation. It does not state stability (names of equal version keep their listing order), which `sort_by` provides.
- ListRemote.ProxyEntries: its own contract states only the length bound. What it keeps and drops is stated by `ProxyEntriesKept`, `ProxyLineKept` and `ProxyEntriesNext`.
- ListRemote.Listed: `GoVersionInfo` (`shared/versions.rs:5`) derives neither `PartialEq` nor `Serialize`, which the comparison at `list_remote.rs:63` and the cache write at `list_remote.rs:176` need. The model compares and stores version and stable flag together, as those lines evidently intend.
- LocalVersions.InstalledVersions: `default.rs` keeps its own copy of `get_installed_versions`, identical to `local_versions.rs`. Both are this one definition.
