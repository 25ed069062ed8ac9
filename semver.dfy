/** The part of Semantic Versioning 2.0.0 the `list` command relies on: parsing
    `MAJOR.MINOR.PATCH[-PRERELEASE]` and the precedence order between versions. */
module SemVer {
  import opened Wrappers
  import opened Strings

  predicate IsDigit(c: char) { '0' <= c <= '9' }

  predicate AllDigits(s: string) {
    forall i :: 0 <= i < |s| ==> IsDigit(s[i])
  }

  /** The number a run of decimal digits denotes. */
  function DigitsValue(s: string): nat
    requires AllDigits(s)
  {
    if s == [] then 0 else DigitsValue(s[..|s| - 1]) * 10 + (s[|s| - 1] as int - '0' as int)
  }

  /** A numeric field: decimal digits, without a leading zero unless it is "0". */
  function ParseNumber(s: string): (r: Option<nat>)
    ensures r.Some? <==> s != [] && AllDigits(s) && (s[0] == '0' ==> |s| == 1)
  {
    if s != [] && AllDigits(s) && (s[0] == '0' ==> |s| == 1) then Some(DigitsValue(s)) else None
  }

  /** The canonical decimal form of a number. */
  function NatDigits(n: nat): (r: string)
    ensures r != [] && AllDigits(r)
    ensures r[0] == '0' <==> n == 0
    ensures |r| == 1 <==> n < 10
    ensures '.' !in r && '-' !in r && '+' !in r
  {
    if n < 10 then ['0' + n as char]
    else NatDigits(n / 10) + ['0' + (n % 10) as char]
  }

  /** The canonical form parses back to the number. */
  lemma {:induction false} NatDigitsRoundTrip(n: nat)
    ensures ParseNumber(NatDigits(n)) == Some(n)
  {
    var r := NatDigits(n);
    if n >= 10 {
      NatDigitsRoundTrip(n / 10);
      assert r[..|r| - 1] == NatDigits(n / 10);
      assert r[|r| - 1] as int - '0' as int == n % 10;
    } else {
      assert r[..0] == [];
      assert r[0] as int - '0' as int == n;
      assert DigitsValue(r) == DigitsValue(r[..0]) * 10 + n;
    }
  }

  /** `s.split(c)`: the pieces between the separators, at least one. */
  function SplitAll(s: string, c: char): (r: seq<string>)
    decreases |s|
    ensures |r| >= 1
    ensures forall i :: 0 <= i < |r| ==> c !in r[i]
  {
    match SplitOnce(s, c)
    case None => [s]
    case Some((head, tail)) => [head] + SplitAll(tail, c)
  }

  /** Splitting pieces that do not contain the separator, joined by it, gives the pieces. */
  lemma {:induction false} SplitAllPieces(a: string, b: string, c: char)
    requires c !in a
    ensures SplitAll(a + [c] + b, c) == [a] + SplitAll(b, c)
  {
    var s := a + [c] + b;
    assert s[|a|] == c;
    var (h, t) := SplitOnce(s, c).value;
    assert forall k :: 0 <= k < |a| ==> s[k] == a[k] && s[k] != c;
    assert s[|h|] == c;
    assert |h| == |a|;
    assert h == s[..|a|] == a;
    assert t == s[|a| + 1..] == b;
  }

  /** A pre-release identifier: a number, or text with at least one non-digit. */
  datatype Identifier = Numeric(n: nat) | Alphanumeric(text: string)

  /** A parsed version; build metadata is not part of it. */
  datatype Version = Version(major: nat, minor: nat, patch: nat, pre: seq<Identifier>)

  predicate IdentifierChar(c: char) {
    IsDigit(c) || 'A' <= c <= 'Z' || 'a' <= c <= 'z' || c == '-'
  }

  /** One dot-separated pre-release identifier: non-empty, ASCII alphanumerics and
      hyphens; an all-digit identifier is numeric and must not have a leading zero. */
  function ParseIdentifier(s: string): (r: Option<Identifier>)
    ensures r.Some? ==> s != [] && forall i :: 0 <= i < |s| ==> IdentifierChar(s[i])
    ensures r.Some? && r.value.Alphanumeric? ==> r.value.text == s && !AllDigits(s)
  {
    if s == [] || exists i :: 0 <= i < |s| && !IdentifierChar(s[i]) then None
    else if AllDigits(s) then
      match ParseNumber(s)
      case None => None
      case Some(n) => Some(Numeric(n))
    else Some(Alphanumeric(s))
  }

  /** All identifiers of a pre-release, or nothing when one is malformed. */
  function ParseIdentifiers(parts: seq<string>): (r: Option<seq<Identifier>>)
    ensures r.Some? ==> |r.value| == |parts|
  {
    if parts == [] then Some([])
    else
      match (ParseIdentifiers(parts[..|parts| - 1]), ParseIdentifier(parts[|parts| - 1]))
      case (Some(ids), Some(id)) => Some(ids + [id])
      case _ => None
  }

  /** `semver::Version::parse`, without build metadata: exactly three numeric fields
      separated by '.', then optionally '-' and a non-empty pre-release. */
  function ParseVersion(s: string): (r: Option<Version>)
    ensures r.Some? ==> '+' !in s
  {
    if '+' in s then None
    else
      var (core, pre) := match SplitOnce(s, '-')
        case None => (s, None)
        case Some((a, b)) => (a, Some(b));
      var fields := SplitAll(core, '.');
      if |fields| != 3 then None
      else
        var major, minor, patch := ParseNumber(fields[0]), ParseNumber(fields[1]), ParseNumber(fields[2]);
        if major.None? || minor.None? || patch.None? then None
        else if pre.None? then Some(Version(major.value, minor.value, patch.value, []))
        else
          match ParseIdentifiers(SplitAll(pre.value, '.'))
          case None => None
          case Some(ids) => Some(Version(major.value, minor.value, patch.value, ids))
  }

  /** A release `MAJOR.MINOR.PATCH` written canonically parses to its three numbers. */
  lemma {:induction false} ReleaseParses(major: nat, minor: nat, patch: nat)
    ensures ParseVersion(NatDigits(major) + "." + NatDigits(minor) + "." + NatDigits(patch)) ==
      Some(Version(major, minor, patch, []))
  {
    var a, b, c := NatDigits(major), NatDigits(minor), NatDigits(patch);
    var s := a + "." + b + "." + c;
    assert '+' !in s && '-' !in s;
    assert SplitOnce(s, '-').None?;
    assert s == a + ['.'] + (b + ['.'] + c);
    SplitAllPieces(a, b + ['.'] + c, '.');
    SplitAllPieces(b, c, '.');
    assert SplitAll(c, '.') == [c];
    assert SplitAll(s, '.') == [a, b, c];
    NatDigitsRoundTrip(major);
    NatDigitsRoundTrip(minor);
    NatDigitsRoundTrip(patch);
  }

  /** Go's two-field release names such as "1.21" are not versions: no name made of two
      dot-free, hyphen-free parts joined by a '.' parses. */
  lemma {:induction false} TwoFieldsDoNotParse(a: string, b: string)
    requires '.' !in a && '.' !in b && '-' !in a && '-' !in b
    ensures ParseVersion(a + "." + b) == None
  {
    var s := a + "." + b;
    if '+' !in s {
      assert '-' !in s by {
        assert forall k :: 0 <= k < |s| ==> s[k] == (if k < |a| then a[k] else if k == |a| then '.' else b[k - |a| - 1]);
      }
      assert SplitOnce(s, '-').None?;
      assert s == a + ['.'] + b;
      SplitAllPieces(a, b, '.');
      assert SplitOnce(b, '.').None?;
      assert SplitAll(b, '.') == [b];
      assert |SplitAll(s, '.')| == 2;
    }
  }

  /** -1, 0 or 1 as `a` is below, equal to or above `b`. */
  function CompareNat(a: nat, b: nat): int {
    if a < b then -1 else if a > b then 1 else 0
  }

  /** Text in character order, a proper prefix first. */
  function CompareText(a: string, b: string): (r: int)
    decreases |a|
    ensures -1 <= r <= 1
  {
    if a == [] && b == [] then 0
    else if a == [] then -1
    else if b == [] then 1
    else if a[0] < b[0] then -1
    else if a[0] > b[0] then 1
    else CompareText(a[1..], b[1..])
  }

  /** Numeric identifiers by value, below alphanumeric ones, which go in text order. */
  function CompareIdentifier(a: Identifier, b: Identifier): int {
    match (a, b)
    case (Numeric(x), Numeric(y)) => CompareNat(x, y)
    case (Numeric(_), Alphanumeric(_)) => -1
    case (Alphanumeric(_), Numeric(_)) => 1
    case (Alphanumeric(x), Alphanumeric(y)) => CompareText(x, y)
  }

  /** Identifier lists field by field, a proper prefix first. */
  function CompareIdentifiers(a: seq<Identifier>, b: seq<Identifier>): (r: int)
    decreases |a|
    ensures -1 <= r <= 1
  {
    if a == [] && b == [] then 0
    else if a == [] then -1
    else if b == [] then 1
    else if CompareIdentifier(a[0], b[0]) != 0 then CompareIdentifier(a[0], b[0])
    else CompareIdentifiers(a[1..], b[1..])
  }

  /** A version without a pre-release ranks above every pre-release of it. */
  function ComparePre(a: seq<Identifier>, b: seq<Identifier>): int {
    if a == [] && b == [] then 0
    else if a == [] then 1
    else if b == [] then -1
    else CompareIdentifiers(a, b)
  }

  /** Semantic Versioning precedence: the three numbers in turn, then the pre-release. */
  function Compare(v: Version, w: Version): (r: int)
    ensures -1 <= r <= 1
  {
    if v.major != w.major then CompareNat(v.major, w.major)
    else if v.minor != w.minor then CompareNat(v.minor, w.minor)
    else if v.patch != w.patch then CompareNat(v.patch, w.patch)
    else ComparePre(v.pre, w.pre)
  }

  /** Comparing the other way round flips the answer. */
  lemma {:induction false} CompareTextFlip(a: string, b: string)
    ensures CompareText(b, a) == -CompareText(a, b)
    ensures CompareText(a, b) == 0 <==> a == b
    decreases |a|
  {
    if a != [] && b != [] && a[0] == b[0] {
      CompareTextFlip(a[1..], b[1..]);
      if a[1..] == b[1..] {
        assert a == [a[0]] + a[1..] && b == [b[0]] + b[1..];
      }
    }
  }

  lemma {:induction false} CompareTextTransitive(a: string, b: string, c: string)
    requires CompareText(a, b) <= 0 && CompareText(b, c) <= 0
    ensures CompareText(a, c) <= 0
    decreases |a|
  {
    if a != [] && b != [] && c != [] && a[0] == b[0] == c[0] {
      CompareTextTransitive(a[1..], b[1..], c[1..]);
    }
  }

  lemma CompareIdentifierFlip(a: Identifier, b: Identifier)
    ensures CompareIdentifier(b, a) == -CompareIdentifier(a, b)
    ensures CompareIdentifier(a, b) == 0 <==> a == b
  {
    if a.Alphanumeric? && b.Alphanumeric? {
      CompareTextFlip(a.text, b.text);
    }
  }

  lemma CompareIdentifierTransitive(a: Identifier, b: Identifier, c: Identifier)
    requires CompareIdentifier(a, b) <= 0 && CompareIdentifier(b, c) <= 0
    ensures CompareIdentifier(a, c) <= 0
  {
    if a.Alphanumeric? && b.Alphanumeric? && c.Alphanumeric? {
      CompareTextTransitive(a.text, b.text, c.text);
    }
  }

  lemma {:induction false} CompareIdentifiersFlip(a: seq<Identifier>, b: seq<Identifier>)
    ensures CompareIdentifiers(b, a) == -CompareIdentifiers(a, b)
    ensures CompareIdentifiers(a, b) == 0 <==> a == b
    decreases |a|
  {
    if a != [] && b != [] {
      CompareIdentifierFlip(a[0], b[0]);
      if CompareIdentifier(a[0], b[0]) == 0 {
        CompareIdentifiersFlip(a[1..], b[1..]);
        if a[1..] == b[1..] {
          assert a == [a[0]] + a[1..] && b == [b[0]] + b[1..];
        }
      }
    }
  }

  lemma {:induction false} CompareIdentifiersTransitive(a: seq<Identifier>, b: seq<Identifier>, c: seq<Identifier>)
    requires CompareIdentifiers(a, b) <= 0 && CompareIdentifiers(b, c) <= 0
    ensures CompareIdentifiers(a, c) <= 0
    decreases |a|
  {
    if a != [] && b != [] && c != [] {
      CompareIdentifierFlip(a[0], b[0]);
      CompareIdentifierFlip(b[0], c[0]);
      CompareIdentifierFlip(a[0], c[0]);
      CompareIdentifierTransitive(a[0], b[0], c[0]);
      if CompareIdentifier(a[0], b[0]) == 0 && CompareIdentifier(b[0], c[0]) == 0 {
        CompareIdentifiersTransitive(a[1..], b[1..], c[1..]);
      }
    }
  }

  /** Precedence is antisymmetric, and only equal versions are level. */
  lemma CompareFlip(v: Version, w: Version)
    ensures Compare(w, v) == -Compare(v, w)
    ensures Compare(v, w) == 0 <==> v == w
  {
    if v.pre != [] && w.pre != [] {
      CompareIdentifiersFlip(v.pre, w.pre);
    }
  }

  /** Precedence is transitive, so it orders any set of versions. */
  lemma CompareTransitive(u: Version, v: Version, w: Version)
    requires Compare(u, v) <= 0 && Compare(v, w) <= 0
    ensures Compare(u, w) <= 0
  {
    if u.major == v.major == w.major && u.minor == v.minor == w.minor && u.patch == v.patch == w.patch {
      if u.pre != [] && v.pre != [] && w.pre != [] {
        CompareIdentifiersTransitive(u.pre, v.pre, w.pre);
      }
    }
  }

  /** A pre-release comes before its release, which comes before the next patch. */
  lemma PreReleaseFirst(major: nat, minor: nat, patch: nat, pre: seq<Identifier>)
    requires pre != []
    ensures Compare(Version(major, minor, patch, pre), Version(major, minor, patch, [])) == -1
    ensures Compare(Version(major, minor, patch, []), Version(major, minor, patch + 1, pre)) == -1
  {
  }
}
