/** The shim's reading of a go.mod file: the `go` and `toolchain` directives. */
module GoMod {
  import opened Wrappers
  import opened Strings

  /** What one go.mod line says to the shim. */
  datatype Directive = GoLine(version: string) | ToolchainLine(version: string) | OtherLine

  /** A line with its comment cut off at the first "//" and whitespace trimmed. */
  function Uncommented(line: string): string {
    Trim(BeforeFirst(line, "//"))
  }

  /** The directive named by a line's words: `go <v>` or `toolchain <v>`, where a
      toolchain value loses one leading "go"; fewer than two words say nothing. */
  function DirectiveOf(parts: seq<string>): Directive {
    if |parts| < 2 then OtherLine
    else if parts[0] == "go" then GoLine(parts[1])
    else if parts[0] == "toolchain" then
      var v := StripPrefix(parts[1], "go");
      ToolchainLine(if v.Some? then v.value else parts[1])
    else OtherLine
  }

  function ParseLine(line: string): Directive {
    var l := Uncommented(line);
    if l == "" then OtherLine else DirectiveOf(SplitWhitespace(l))
  }

  /** The directives of a file's lines, in order. */
  function Directives(lines: seq<string>): (ds: seq<Directive>)
    ensures |ds| == |lines|
  {
    seq(|lines|, i requires 0 <= i < |lines| => ParseLine(lines[i]))
  }

  /** The value a directive gives to `toolchain` (when `toolchain` holds) or to `go`. */
  function ValueOf(d: Directive, toolchain: bool): Option<string> {
    if toolchain && d.ToolchainLine? then Some(d.version)
    else if !toolchain && d.GoLine? then Some(d.version)
    else None
  }

  /** The value set by the last directive that sets it. */
  function LastValue(ds: seq<Directive>, toolchain: bool): Option<string> {
    if ds == [] then None
    else
      var v := ValueOf(ds[|ds| - 1], toolchain);
      if v.Some? then v else LastValue(ds[..|ds| - 1], toolchain)
  }

  /** The version a go.mod names: its `toolchain` directive, else its `go` directive. */
  function GoModVersion(content: string): Option<string> {
    Chosen(Directives(Lines(content)))
  }

  /** The version a sequence of directives chooses: the toolchain value, else the go value. */
  function Chosen(ds: seq<Directive>): Option<string> {
    var toolchain := LastValue(ds, true);
    if toolchain.Some? then toolchain else LastValue(ds, false)
  }

  /** One go.mod line as `find_go_version` reads it: the comment cut off, the rest
      trimmed, blank lines and lines of fewer than two words skipped. */
  method ReadLine(line: string) returns (d: Directive)
    ensures d == ParseLine(line)
  {
    var l := Uncommented(line);
    if l == "" {
      return OtherLine;
    }
    var parts := SplitWhitespace(l);
    if |parts| < 2 {
      return OtherLine;
    }
    if parts[0] == "go" {
      d := GoLine(parts[1]);
    } else if parts[0] == "toolchain" {
      var v := StripPrefix(parts[1], "go");
      d := ToolchainLine(if v.Some? then v.value else parts[1]);
    } else {
      d := OtherLine;
    }
  }

  /** The go.mod loop of `find_go_version`: later lines override earlier ones, and the
      toolchain value wins over the go value. */
  method ParseGoMod(content: string) returns (version: Option<string>)
    ensures version == GoModVersion(content)
  {
    var lines := Lines(content);
    ghost var ds := Directives(lines);
    var goVersion: Option<string> := None;
    var toolchainVersion: Option<string> := None;
    for i := 0 to |lines|
      invariant goVersion == LastValue(ds[..i], false)
      invariant toolchainVersion == LastValue(ds[..i], true)
    {
      var d := ReadLine(lines[i]);
      assert d == ds[i];
      LastValueNext(ds, i);
      match d
      case GoLine(v) => goVersion := Some(v);
      case ToolchainLine(v) => toolchainVersion := Some(v);
      case OtherLine =>
    }
    assert ds[..|lines|] == ds;
    version := if toolchainVersion.Some? then toolchainVersion else goVersion;
  }

  /** Reading one more directive: it sets the value when it names one, and leaves the
      value read so far otherwise. */
  lemma LastValueNext(ds: seq<Directive>, i: nat)
    requires i < |ds|
    ensures forall toolchain: bool {:trigger ValueOf(ds[i], toolchain)} ::
      LastValue(ds[..i + 1], toolchain) ==
        if ValueOf(ds[i], toolchain).Some? then ValueOf(ds[i], toolchain) else LastValue(ds[..i], toolchain)
  {
    assert ds[..i + 1][..i] == ds[..i];
    assert ds[..i + 1][i] == ds[i];
  }

  /** A directive's value comes from its last setting: the directive found sets it and no
      later one does. */
  lemma {:induction false} LastValueFrom(ds: seq<Directive>, toolchain: bool, v: string) returns (i: nat)
    requires LastValue(ds, toolchain) == Some(v)
    ensures i < |ds| && ValueOf(ds[i], toolchain) == Some(v)
    ensures forall j :: i < j < |ds| ==> ValueOf(ds[j], toolchain).None?
  {
    var n := |ds| - 1;
    if ValueOf(ds[n], toolchain).Some? {
      i := n;
    } else {
      i := LastValueFrom(ds[..n], toolchain, v);
      assert ds[i] == ds[..n][i];
      assert forall j :: i < j < n ==> ds[j] == ds[..n][j];
    }
  }

  /** Conversely, the last directive setting a value decides it, and a value no directive
      sets is absent. */
  lemma {:induction false} LastValueIs(ds: seq<Directive>, toolchain: bool, i: int)
    requires -1 <= i < |ds| && (i >= 0 ==> ValueOf(ds[i], toolchain).Some?)
    requires forall j :: i < j < |ds| ==> ValueOf(ds[j], toolchain).None?
    ensures LastValue(ds, toolchain) == if i < 0 then None else ValueOf(ds[i], toolchain)
  {
    if ds != [] && i < |ds| - 1 {
      var n := |ds| - 1;
      assert forall j :: i < j < n ==> ds[..n][j] == ds[j];
      LastValueIs(ds[..n], toolchain, i);
      if i >= 0 {
        assert ds[..n][i] == ds[i];
      }
    }
  }

  /** A value some directive sets is present. */
  lemma {:induction false} LastValueSet(ds: seq<Directive>, toolchain: bool, i: nat)
    requires i < |ds| && ValueOf(ds[i], toolchain).Some?
    ensures LastValue(ds, toolchain).Some?
  {
    var n := |ds| - 1;
    if i < n && ValueOf(ds[n], toolchain).None? {
      assert ds[..n][i] == ds[i];
      LastValueSet(ds[..n], toolchain, i);
    }
  }

  /** Toolchain first: with a `toolchain` directive anywhere, the `go` directives do not
      matter. */
  lemma {:induction false} ToolchainWins(ds: seq<Directive>, i: nat)
    requires i < |ds| && ds[i].ToolchainLine?
    ensures Chosen(ds).Some?
    ensures Chosen(ds) == LastValue(ds, true)
  {
    LastValueSet(ds, true, i);
  }

  /** Without a `toolchain` directive, the last `go` directive decides. */
  lemma {:induction false} LastGoLineWins(ds: seq<Directive>, i: nat)
    requires i < |ds| && ds[i].GoLine?
    requires forall j :: 0 <= j < |ds| ==> !ds[j].ToolchainLine?
    requires forall j :: i < j < |ds| ==> !ds[j].GoLine?
    ensures Chosen(ds) == Some(ds[i].version)
  {
    LastValueIs(ds, true, -1);
    LastValueIs(ds, false, i);
  }

  /** A `toolchain` value loses exactly one leading "go" (`toolchain go1.22.1` names
      1.22.1, `toolchain gogo1` names go1); a value without that prefix is kept whole; a
      `go` value is kept whole. */
  lemma {:induction false} ToolchainValue(v: string, w: string)
    ensures DirectiveOf(["toolchain", "go" + v]) == ToolchainLine(v)
    ensures !StartsWith(w, "go") ==> DirectiveOf(["toolchain", w]) == ToolchainLine(w)
    ensures DirectiveOf(["go", w]) == GoLine(w)
  {
    assert ("go" + v)[..2] == "go" && ("go" + v)[2..] == v;
  }
}
