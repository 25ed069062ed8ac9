/** The project pin: a `.golta.json` file in the current directory or one of its
    ancestors whose "go" member is a string. */
module PinnedVersion {
  import opened Wrappers
  import opened FileSystem
  import opened Layout

  /** A JSON value as far as golta looks at it: a string, or anything else. */
  datatype JsonValue = JString(s: string) | JOther

  /** A parsed JSON document: a syntax error, a non-object value, or an object. */
  datatype JsonDoc = Malformed | Scalar | Object(fields: map<string, JsonValue>)

  /** serde_json's parser, taken as a parameter. */
  type Decoder = string -> JsonDoc

  /** `extract_go_version`: the "go" member of a pin file when it is a string. */
  function ExtractGoVersion(decode: Decoder, raw: string): (r: Result<Option<string>>)
    ensures r.Err? <==> decode(raw).Malformed?
    ensures r.Err? ==> r.error == JsonSyntax
    ensures r.Ok? && r.value.Some? <==>
      decode(raw).Object? && "go" in decode(raw).fields && decode(raw).fields["go"].JString?
    ensures r.Ok? && r.value.Some? ==> decode(raw).fields["go"] == JString(r.value.value)
  {
    match decode(raw)
    case Malformed => Err(JsonSyntax)
    case Scalar => Ok(None)
    case Object(fields) =>
      if "go" in fields && fields["go"].JString? then Ok(Some(fields["go"].s)) else Ok(None)
  }

  /** What the pin file of one directory says: nothing (absent, or no string "go"),
      a version, or an error (unreadable, or invalid JSON). */
  function PinAt(t: Tree, decode: Decoder, dir: Path): (r: Result<Option<string>>)
    ensures PinFile(dir) !in t ==> r == Ok(None)
    ensures PinFile(dir) in t ==> r.Err? || t[PinFile(dir)].File?
    ensures PinFile(dir) in t && ReadText(t, PinFile(dir)).Err? ==> r == Err(ReadText(t, PinFile(dir)).error)
    ensures ReadText(t, PinFile(dir)).Ok? ==> r == ExtractGoVersion(decode, ReadText(t, PinFile(dir)).value)
  {
    var pin := PinFile(dir);
    if !Exists(t, pin) then Ok(None)
    else match ReadText(t, pin)
      case Err(e) => Err(e)
      case Ok(text) => ExtractGoVersion(decode, text)
  }

  /** The pin a search from `dir` finds: the version and its file, or nothing. */
  function PinLookup(t: Tree, decode: Decoder, dir: Path): Result<Option<(string, Path)>>
    decreases |dir|
  {
    match PinAt(t, decode, dir)
    case Err(e) => Err(e)
    case Ok(Some(v)) => Ok(Some((v, PinFile(dir))))
    case Ok(None) => if dir == [] then Ok(None) else PinLookup(t, decode, dir[..|dir| - 1])
  }

  /** `find_pinned_go_version_from`: walks from `start` up to the root, stopping at the
      first pin file that names a version or cannot be read or parsed. */
  method FindPinnedGoVersionFrom(t: Tree, decode: Decoder, start: Path)
    returns (r: Result<Option<(string, Path)>>)
    ensures r == PinLookup(t, decode, start)
  {
    var current := start;
    while true
      invariant |current| <= |start| && current == start[..|current|]
      invariant PinLookup(t, decode, current) == PinLookup(t, decode, start)
      decreases |current|
    {
      var pin := PinFile(current);
      if Exists(t, pin) {
        var content := ReadText(t, pin);
        if content.Err? {
          return Err(content.error);
        }
        var version := ExtractGoVersion(decode, content.value);
        if version.Err? {
          return Err(version.error);
        }
        if version.value.Some? {
          return Ok(Some((version.value.value, pin)));
        }
      }
      if current == [] {
        return Ok(None);
      }
      current := current[..|current| - 1];
    }
  }

  /** Every directory of the walk from `start` that is closer than the one `k`
      components deep has no pin to offer. */
  predicate NothingCloser(t: Tree, decode: Decoder, start: Path, k: nat)
    requires k <= |start|
  {
    forall j :: k < j <= |start| ==> PinAt(t, decode, start[..j]) == Ok(None)
  }

  /** A found pin comes from the nearest ancestor (or `start` itself) whose pin file
      names a version; every closer directory offers nothing. */
  lemma {:induction false} PinLookupFindsNearest(t: Tree, decode: Decoder, start: Path, v: string, p: Path)
    returns (k: nat)
    requires PinLookup(t, decode, start) == Ok(Some((v, p)))
    ensures k <= |start| && p == PinFile(start[..k])
    ensures PinAt(t, decode, start[..k]) == Ok(Some(v))
    ensures NothingCloser(t, decode, start, k)
    decreases |start|
  {
    if PinAt(t, decode, start) == Ok(Some(v)) {
      k := |start|;
      assert start[..k] == start;
    } else {
      var parent := start[..|start| - 1];
      k := PinLookupFindsNearest(t, decode, parent, v, p);
      assert start[..k] == parent[..k];
      assert forall j :: k < j <= |parent| ==> start[..j] == parent[..j];
      assert start[..|start|] == start;
    }
  }

  /** Conversely, the nearest pin naming a version is the one found. */
  lemma {:induction false} NearestPinIsFound(t: Tree, decode: Decoder, start: Path, k: nat, v: string)
    requires k <= |start| && PinAt(t, decode, start[..k]) == Ok(Some(v))
    requires NothingCloser(t, decode, start, k)
    ensures PinLookup(t, decode, start) == Ok(Some((v, PinFile(start[..k]))))
    decreases |start|
  {
    if k == |start| {
      assert start[..k] == start;
    } else {
      assert start[..|start|] == start;
      var parent := start[..|start| - 1];
      assert start[..k] == parent[..k];
      assert forall j :: k < j <= |parent| ==> start[..j] == parent[..j];
      NearestPinIsFound(t, decode, parent, k, v);
    }
  }

  /** The search finds nothing exactly when no directory from `start` to the root
      offers a pin. */
  lemma {:induction false} PinLookupNone(t: Tree, decode: Decoder, start: Path)
    ensures PinLookup(t, decode, start) == Ok(None) <==> NothingCloser(t, decode, start, 0) && PinAt(t, decode, []) == Ok(None)
    decreases |start|
  {
    if start != [] {
      var parent := start[..|start| - 1];
      PinLookupNone(t, decode, parent);
      assert start[..|start|] == start;
      assert forall j :: 0 < j <= |parent| ==> start[..j] == parent[..j];
      assert start[..0] == parent[..0];
    }
  }

  /** A failed search failed at some directory of the walk, and nothing closer offered a pin. */
  lemma {:induction false} PinLookupFails(t: Tree, decode: Decoder, start: Path, e: Error)
    returns (k: nat)
    requires PinLookup(t, decode, start) == Err(e)
    ensures k <= |start| && PinAt(t, decode, start[..k]) == Err(e)
    ensures NothingCloser(t, decode, start, k)
    decreases |start|
  {
    if PinAt(t, decode, start).Err? {
      k := |start|;
      assert start[..k] == start;
    } else {
      var parent := start[..|start| - 1];
      k := PinLookupFails(t, decode, parent, e);
      assert start[..k] == parent[..k];
      assert forall j :: k < j <= |parent| ==> start[..j] == parent[..j];
      assert start[..|start|] == start;
    }
  }

  /** Two trees that agree on the pin files of the walk give the same search result:
      nothing else on the disk is looked at. */
  lemma {:induction false} PinLookupFrame(t1: Tree, t2: Tree, decode: Decoder, start: Path)
    requires forall k :: 0 <= k <= |start| ==>
      (PinFile(start[..k]) in t1 <==> PinFile(start[..k]) in t2) &&
      (PinFile(start[..k]) in t1 ==> t1[PinFile(start[..k])] == t2[PinFile(start[..k])])
    ensures PinLookup(t1, decode, start) == PinLookup(t2, decode, start)
    decreases |start|
  {
    assert start[..|start|] == start;
    assert PinAt(t1, decode, start) == PinAt(t2, decode, start);
    if start != [] {
      var parent := start[..|start| - 1];
      assert forall k :: 0 <= k <= |parent| ==> parent[..k] == start[..k];
      PinLookupFrame(t1, t2, decode, parent);
    }
  }
}
