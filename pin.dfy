/** `golta pin go@<version>`: writes the project pin file in the current directory. */
module Pin {
  import opened Wrappers
  import opened Strings
  import opened FileSystem
  import opened Layout
  import opened PinnedVersion
  import opened LocalVersions
  import opened ActiveVersion

  /** A hexadecimal digit as serde_json writes it (lower case). */
  function HexDigit(n: nat): char
    requires n < 16
  {
    if n < 10 then ('0' as int + n) as char else ('a' as int + n - 10) as char
  }

  function HexValue(c: char): Option<nat> {
    if '0' <= c <= '9' then Some(c as int - '0' as int)
    else if 'a' <= c <= 'f' then Some(c as int - 'a' as int + 10)
    else if 'A' <= c <= 'F' then Some(c as int - 'A' as int + 10)
    else None
  }

  /** How serde_json writes one character inside a string literal. */
  function EscapeChar(c: char): string {
    if c == '"' then "\\\""
    else if c == '\\' then "\\\\"
    else if c == '\n' then "\\n"
    else if c == '\r' then "\\r"
    else if c == '\t' then "\\t"
    else if c == '\U{8}' then "\\b"
    else if c == '\U{C}' then "\\f"
    else if c < ' ' then "\\u00" + [HexDigit(c as int / 16), HexDigit(c as int % 16)]
    else [c]
  }

  /** The body of a JSON string literal holding `s`. */
  function Escaped(s: string): string {
    if s == [] then [] else EscapeChar(s[0]) + Escaped(s[1..])
  }

  /** Reads the body of a JSON string literal back into the string it denotes. */
  function Unescaped(s: string): Option<string>
    decreases |s|
  {
    if s == [] then Some([])
    else if s[0] == '"' || s[0] < ' ' then None
    else if s[0] != '\\' then Prepend(s[0], Unescaped(s[1..]))
    else if |s| < 2 then None
    else if s[1] == 'u' then
      if |s| < 6 then None
      else match (HexValue(s[2]), HexValue(s[3]), HexValue(s[4]), HexValue(s[5]))
        case (Some(a), Some(b), Some(c), Some(d)) =>
          var n := ((a * 16 + b) * 16 + c) * 16 + d;
          if 0xD800 <= n < 0xE000 then None else Prepend(n as char, Unescaped(s[6..]))
        case _ => None
    else
      var c := s[1];
      var d :=
        if c == '"' then Some('"') else if c == '\\' then Some('\\') else if c == '/' then Some('/')
        else if c == 'n' then Some('\n') else if c == 'r' then Some('\r') else if c == 't' then Some('\t')
        else if c == 'b' then Some('\U{8}') else if c == 'f' then Some('\U{C}') else None;
      if d.None? then None else Prepend(d.value, Unescaped(s[2..]))
  }

  function Prepend(c: char, rest: Option<string>): Option<string> {
    if rest.None? then None else Some([c] + rest.value)
  }

  lemma {:induction false} UnescapeOneChar(c: char, rest: string)
    ensures Unescaped(EscapeChar(c) + rest) == Prepend(c, Unescaped(rest))
  {
    var s := EscapeChar(c) + rest;
    if c < ' ' && c != '\n' && c != '\r' && c != '\t' && c != '\U{8}' && c != '\U{C}' {
      var hi, lo := c as int / 16, c as int % 16;
      assert s[..6] == "\\u00" + [HexDigit(hi), HexDigit(lo)];
      assert s[2] == '0' && s[3] == '0' && s[4] == HexDigit(hi) && s[5] == HexDigit(lo);
      assert HexValue(HexDigit(hi)) == Some(hi);
      assert HexValue(HexDigit(lo)) == Some(lo);
      assert s[6..] == rest;
    } else if |EscapeChar(c)| == 2 {
      assert s[2..] == rest;
    } else {
      assert s[1..] == rest;
    }
  }

  /** serde_json's escaping loses nothing: the literal reads back as the string. */
  lemma {:induction false} EscapedRoundTrip(s: string)
    ensures Unescaped(Escaped(s)) == Some(s)
  {
    if s != [] {
      EscapedRoundTrip(s[1..]);
      UnescapeOneChar(s[0], Escaped(s[1..]));
      assert [s[0]] + s[1..] == s;
    }
  }

  /** `serde_json::to_string_pretty` of the pin file record `{ go: version }`. */
  function PinFileText(version: string): string {
    "{\n  \"go\": \"" + Escaped(version) + "\"\n}"
  }

  const PinFormatError := "Invalid format. Use `golta pin go@<version>`."

  function NotInstalledError(version: string): string {
    "Go version '" + version + "' is not installed. Please install it first with `golta install go@" + version + "`."
  }

  /** The checks of `pin_go_version` before anything is written: the `go@` prefix, then
      the installed versions. */
  function PinRequest(tool: string, installed: Result<seq<string>>): (r: Result<string>)
    ensures !StartsWith(tool, "go@") ==> r == Err(Message(PinFormatError))
    ensures r.Ok? <==> StartsWith(tool, "go@") && installed.Ok? && TrimStartMatches(tool, "go@") in installed.value
    ensures r.Ok? ==> r.value == TrimStartMatches(tool, "go@") && !StartsWith(r.value, "go@")
    ensures StartsWith(tool, "go@") && installed.Err? ==> r == Err(installed.error)
    ensures StartsWith(tool, "go@") && installed.Ok? && TrimStartMatches(tool, "go@") !in installed.value ==>
      r == Err(Message(NotInstalledError(TrimStartMatches(tool, "go@"))))
  {
    if !StartsWith(tool, "go@") then Err(Message(PinFormatError))
    else
      var version := TrimStartMatches(tool, "go@");
      if installed.Err? then Err(installed.error)
      else if version !in installed.value then Err(Message(NotInstalledError(version)))
      else Ok(version)
  }

  function PinnedMessage(version: string, cwd: Path): string {
    "Pinned Go version " + version + " to " + Display(PinFile(cwd))
  }

  /** `pin_go_version`: validates, then replaces `<cwd>/.golta.json` with `{"go": version}`. */
  method PinGoVersion(disk: Disk, tool: string, cwd: Path, home: Option<Path>, listing: Listing)
    returns (r: Result<()>, out: seq<string>)
    modifies disk
    ensures var request := PinRequest(tool, InstalledVersions(old(disk.tree), home, listing));
      request.Err? ==> r == Err(request.error) && disk.tree == old(disk.tree) && out == []
    ensures var request := PinRequest(tool, InstalledVersions(old(disk.tree), home, listing));
      request.Ok? ==>
        var written := FileWritten(old(disk.tree), PinFile(cwd), PinFileText(request.value));
        r == Status(written) && disk.tree == After(old(disk.tree), written) &&
        out == if written.Ok? then [PinnedMessage(request.value, cwd)] else []
  {
    if !StartsWith(tool, "go@") {
      return Err(Message(PinFormatError)), [];
    }
    var version := TrimStartMatches(tool, "go@");
    var installed := GetInstalledVersions(disk.tree, home, listing);
    if installed.Err? {
      return Err(installed.error), [];
    }
    if version !in installed.value {
      return Err(Message(NotInstalledError(version))), [];
    }
    r := disk.WriteFile(PinFile(cwd), PinFileText(version));
    out := if r.Ok? then [PinnedMessage(version, cwd)] else [];
  }

  /** Pinning and then resolving from the same directory gives back the pinned version
      and the pin file just written, whatever the ancestors or the default hold. The
      decoder is one that reads the written text as the object `{"go": v}`, as a JSON
      parser does by `EscapedRoundTrip`. */
  lemma {:induction false} PinRoundTrip(t: Tree, decode: Decoder, cwd: Path, home: Option<Path>, v: string)
    requires decode(PinFileText(v)) == Object(map["go" := JString(v)])
    requires FileWritten(t, PinFile(cwd), PinFileText(v)).Ok?
    ensures var t1 := FileWritten(t, PinFile(cwd), PinFileText(v)).value;
      PinLookup(t1, decode, cwd) == Ok(Some((v, PinFile(cwd)))) &&
      FindActiveGoVersion(t1, decode, cwd, home) == Ok(Some(v))
  {
    var t1 := FileWritten(t, PinFile(cwd), PinFileText(v)).value;
    assert ReadText(t1, PinFile(cwd)) == Ok(PinFileText(v));
    assert PinAt(t1, decode, cwd) == Ok(Some(v));
  }

  /** When the directory listing describes the disk and reads without error, a pin of
      a non-empty version is accepted exactly when `~/.golta/versions/<version>` is a
      directory. */
  lemma {:induction false} PinAcceptsExactlyInstalled(t: Tree, home: Path, listing: Listing, tool: string)
    requires ListingOf(t, VersionsDir(home), listing)
    requires InstalledVersions(t, Some(home), listing).Ok?
    requires StartsWith(tool, "go@") && TrimStartMatches(tool, "go@") != ""
    ensures PinRequest(tool, InstalledVersions(t, Some(home), listing)).Ok? <==>
      Exists(t, VersionsDir(home)) && IsDir(t, VersionDir(home, TrimStartMatches(tool, "go@")))
  {
    InstalledIffDir(t, home, listing, TrimStartMatches(tool, "go@"));
  }

  /** A version pin accepts names a directory under `~/.golta/versions`, when the
      directory listing describes the disk. */
  lemma {:induction false} PinnedVersionIsInstalled(t: Tree, home: Path, listing: Listing, tool: string)
    requires ListingOf(t, VersionsDir(home), listing)
    requires PinRequest(tool, InstalledVersions(t, Some(home), listing)).Ok?
    ensures var v := PinRequest(tool, InstalledVersions(t, Some(home), listing)).value;
      v != "" ==> IsDir(t, VersionDir(home, v))
  {
    var v := PinRequest(tool, InstalledVersions(t, Some(home), listing)).value;
    InstalledNamesAreDirs(t, home, listing, v);
  }
}
