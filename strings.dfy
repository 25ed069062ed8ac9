/** The Rust `str` operations golta relies on, over `seq<char>`. */
module Strings {
  import opened Wrappers

  /** `char::is_whitespace`: the Unicode White_Space property. */
  predicate IsWhitespace(c: char) {
    c == ' ' || '\t' <= c <= '\r' || c == '\U{85}' || c == '\U{A0}' || c == '\U{1680}'
    || '\U{2000}' <= c <= '\U{200A}' || c == '\U{2028}' || c == '\U{2029}'
    || c == '\U{202F}' || c == '\U{205F}' || c == '\U{3000}'
  }

  predicate AllWhitespace(s: string) {
    forall i :: 0 <= i < |s| ==> IsWhitespace(s[i])
  }

  /** A non-empty run of characters none of which is whitespace. */
  predicate IsWord(w: string) {
    w != [] && forall i :: 0 <= i < |w| ==> !IsWhitespace(w[i])
  }

  /** `str::trim_start`. */
  function TrimStart(s: string): (r: string)
    ensures |r| <= |s|
    ensures r == [] || !IsWhitespace(r[0])
  {
    if s != [] && IsWhitespace(s[0]) then TrimStart(s[1..]) else s
  }

  /** `str::trim_start` keeps a suffix of `s` and drops only whitespace before it. */
  lemma {:induction false} TrimStartDrops(s: string)
    ensures TrimStart(s) == s[|s| - |TrimStart(s)|..]
    ensures AllWhitespace(s[..|s| - |TrimStart(s)|])
  {
    if s != [] && IsWhitespace(s[0]) {
      TrimStartDrops(s[1..]);
      assert s[1..][|s| - 1 - |TrimStart(s)|..] == s[|s| - |TrimStart(s)|..];
      var k := |s| - |TrimStart(s)|;
      assert forall i :: 1 <= i < k ==> s[..k][i] == s[1..][..k - 1][i - 1];
    }
  }

  /** `str::trim_end`. */
  function TrimEnd(s: string): (r: string)
    ensures |r| <= |s|
    ensures r == [] || !IsWhitespace(r[|r| - 1])
  {
    if s != [] && IsWhitespace(s[|s| - 1]) then TrimEnd(s[..|s| - 1]) else s
  }

  /** `str::trim_end` keeps a prefix of `s` and drops only whitespace after it. */
  lemma {:induction false} TrimEndDrops(s: string)
    ensures TrimEnd(s) == s[..|TrimEnd(s)|]
    ensures AllWhitespace(s[|TrimEnd(s)|..])
  {
    if s != [] && IsWhitespace(s[|s| - 1]) {
      var n := |s| - 1;
      TrimEndDrops(s[..n]);
      assert s[..n][..|TrimEnd(s)|] == s[..|TrimEnd(s)|];
      var k := |TrimEnd(s)|;
      assert forall i :: 0 <= i < n - k ==> s[k..][i] == s[..n][k..][i];
    }
  }

  /** How many leading whitespace characters `str::trim` drops. */
  function TrimOffset(s: string): nat {
    |s| - |TrimStart(s)|
  }

  /** `str::trim`: `s` without its leading and trailing whitespace. */
  function Trim(s: string): (r: string)
    ensures |r| <= |s|
    ensures r == [] || (!IsWhitespace(r[0]) && !IsWhitespace(r[|r| - 1]))
  {
    TrimEndDrops(TrimStart(s));
    TrimEnd(TrimStart(s))
  }

  /** `str::trim` keeps a middle slice of `s`, drops only whitespace around it, and is
      empty exactly on a blank string. */
  lemma TrimSlice(s: string)
    ensures Trim(s) == [] <==> AllWhitespace(s)
    ensures TrimOffset(s) + |Trim(s)| <= |s| && Trim(s) == s[TrimOffset(s)..TrimOffset(s) + |Trim(s)|]
    ensures AllWhitespace(s[..TrimOffset(s)]) && AllWhitespace(s[TrimOffset(s) + |Trim(s)|..])
  {
    var t := TrimStart(s);
    TrimStartDrops(s);
    TrimEndDrops(t);
    TrimParts(s, t, Trim(s), TrimOffset(s));
  }

  /** `str::trim` is empty exactly on a blank string. */
  lemma TrimEmpty(s: string)
    ensures Trim(s) == [] <==> AllWhitespace(s)
  {
    TrimSlice(s);
  }

  lemma TrimParts(s: string, t: string, r: string, k: nat)
    requires k <= |s| && t == s[k..] && AllWhitespace(s[..k])
    requires |r| <= |t| && r == t[..|r|] && AllWhitespace(t[|r|..])
    requires t == [] || !IsWhitespace(t[0])
    ensures r == [] <==> AllWhitespace(s)
    ensures k + |r| <= |s| && r == s[k..k + |r|]
    ensures AllWhitespace(s[k + |r|..])
  {
    assert t[|r|..] == s[k + |r|..];
    if r == [] {
      assert s == s[..k] + t;
      AllWhitespaceConcat(s[..k], t);
    } else {
      assert t[0] == r[0];
      assert s[k] == t[0];
    }
  }

  lemma AllWhitespaceConcat(a: string, b: string)
    ensures AllWhitespace(a + b) <==> AllWhitespace(a) && AllWhitespace(b)
  {
    assert forall i :: 0 <= i < |a| ==> (a + b)[i] == a[i];
    assert forall i :: 0 <= i < |b| ==> (a + b)[|a| + i] == b[i];
  }

  /** A string with no whitespace at either end is its own trim. */
  lemma {:induction false} TrimOfTrimmed(s: string)
    requires s == [] || (!IsWhitespace(s[0]) && !IsWhitespace(s[|s| - 1]))
    ensures Trim(s) == s
  {
    if s != [] {
      assert TrimStart(s) == s;
      assert TrimEnd(s) == s;
    }
  }

  predicate StartsWith(s: string, p: string) {
    |p| <= |s| && s[..|p|] == p
  }

  /** `str::strip_prefix`: removes `p` from the front once. */
  function StripPrefix(s: string, p: string): (r: Option<string>)
    ensures r.Some? <==> StartsWith(s, p)
    ensures r.Some? ==> s == p + r.value
  {
    if StartsWith(s, p) then Some(s[|p|..]) else None
  }

  /** `str::trim_start_matches` with a string pattern: removes `p` from the
      front for as long as `s` still starts with it. */
  function TrimStartMatches(s: string, p: string): (r: string)
    decreases |s|
    ensures |r| <= |s|
    ensures p != [] ==> !StartsWith(r, p)
    ensures p == [] || !StartsWith(s, p) ==> r == s
  {
    if p != [] && StartsWith(s, p) then TrimStartMatches(s[|p|..], p) else s
  }

  /** `str::trim_start_matches` keeps a suffix of `s`. */
  lemma {:induction false} TrimStartMatchesSuffix(s: string, p: string)
    decreases |s|
    ensures TrimStartMatches(s, p) == s[|s| - |TrimStartMatches(s, p)|..]
  {
    if p != [] && StartsWith(s, p) {
      TrimStartMatchesSuffix(s[|p|..], p);
      assert s[|p|..][|s| - |p| - |TrimStartMatches(s, p)|..] == s[|s| - |TrimStartMatches(s, p)|..];
    }
  }

  /** Trimming a prefix repeatedly a second time changes nothing. */
  lemma TrimStartMatchesIdempotent(s: string, p: string)
    ensures TrimStartMatches(TrimStartMatches(s, p), p) == TrimStartMatches(s, p)
  {
  }

  /** Stripping once and stripping repeatedly differ exactly when the pattern repeats:
      on "go@go@1.22" `strip_prefix("go@")` leaves "go@1.22", `trim_start_matches` leaves "1.22". */
  lemma {:induction false} StripOnceVersusRepeatedly(s: string, p: string)
    requires p != [] && StartsWith(s, p)
    ensures StripPrefix(s, p) == Some(s[|p|..])
    ensures TrimStartMatches(s, p) == TrimStartMatches(s[|p|..], p)
    ensures TrimStartMatches(s, p) == s[|p|..] <==> !StartsWith(s[|p|..], p)
  {
    var rest := s[|p|..];
    if StartsWith(rest, p) {
      assert |TrimStartMatches(rest, p)| <= |rest| - |p| by {
        assert TrimStartMatches(rest, p) == TrimStartMatches(rest[|p|..], p);
      }
    }
  }

  /** Index of the first `c` in `s`. */
  function IndexOf(s: string, c: char): (r: Option<nat>)
    ensures r.None? <==> c !in s
    ensures r.Some? ==> r.value < |s| && s[r.value] == c && c !in s[..r.value]
  {
    if s == [] then None
    else if s[0] == c then Some(0)
    else match IndexOf(s[1..], c)
      case None => None
      case Some(i) => assert s[1..][..i] == s[1..i + 1]; Some(i + 1)
  }

  /** `str::split_once(c)`: the parts before and after the first `c`. */
  function SplitOnce(s: string, c: char): (r: Option<(string, string)>)
    ensures r.None? <==> c !in s
    ensures r.Some? ==> s == r.value.0 + [c] + r.value.1 && c !in r.value.0
  {
    match IndexOf(s, c)
    case None => None
    case Some(i) => assert s == s[..i] + [c] + s[i + 1..]; Some((s[..i], s[i + 1..]))
  }

  /** `str::contains` with a string pattern. */
  predicate Contains(s: string, t: string)
    decreases |s|
  {
    StartsWith(s, t) || (s != [] && Contains(s[1..], t))
  }

  /** `t` occurs in `s` starting at index `i`. */
  predicate OccursAt(s: string, t: string, i: int) {
    0 <= i <= |s| - |t| && s[i..i + |t|] == t
  }

  /** `Contains` holds exactly when `t` occurs at some position of `s`. */
  lemma {:induction false} ContainsIff(s: string, t: string)
    ensures Contains(s, t) <==> exists i :: OccursAt(s, t, i)
  {
    if StartsWith(s, t) {
      assert OccursAt(s, t, 0);
    } else if s == [] {
    } else {
      ContainsIff(s[1..], t);
      if exists i :: OccursAt(s, t, i) {
        var i :| OccursAt(s, t, i);
        assert i != 0;
        assert OccursAt(s[1..], t, i - 1);
      }
      if Contains(s[1..], t) {
        var j :| OccursAt(s[1..], t, j);
        assert s[j + 1..j + 1 + |t|] == s[1..][j..j + |t|];
        assert OccursAt(s, t, j + 1);
      }
    }
  }

  /** `s.split(pat).next()`: the part of `s` before the first `pat`, or all of `s`. */
  function BeforeFirst(s: string, pat: string): (r: string)
    requires pat != []
    decreases |s|
    ensures |r| <= |s| && r == s[..|r|]
    ensures |r| < |s| ==> StartsWith(s[|r|..], pat)
    ensures forall i :: 0 <= i < |r| ==> !StartsWith(s[i..], pat)
  {
    if s == [] || StartsWith(s, pat) then []
    else
      var rest := BeforeFirst(s[1..], pat);
      assert forall i :: 1 <= i <= |rest| ==> s[i..] == s[1..][i - 1..];
      [s[0]] + rest
  }

  /** A line of `str::lines` loses one "\r" before its "\n". */
  function DropCarriageReturn(l: string): (r: string)
    ensures '\n' in r ==> '\n' in l
  {
    if l != [] && l[|l| - 1] == '\r' then l[..|l| - 1] else l
  }

  /** `str::lines`: splits at "\n", dropping a "\r" just before it; a final "\n"
      does not start an extra empty line. */
  function Lines(s: string): (r: seq<string>)
    decreases |s|
    ensures forall i :: 0 <= i < |r| ==> '\n' !in r[i]
    ensures s == [] <==> r == []
  {
    if s == [] then []
    else match IndexOf(s, '\n')
      case None => [s]
      case Some(i) => [DropCarriageReturn(s[..i])] + Lines(s[i + 1..])
  }

  /** The lines written back, each followed by "\n". */
  function Unlines(ls: seq<string>): string {
    if ls == [] then [] else ls[0] + "\n" + Unlines(ls[1..])
  }

  /** Without carriage returns, `lines()` loses nothing but the line breaks: writing
      the lines back gives the text, with a final "\n" added when it had none. */
  lemma {:induction false} LinesRoundTrip(s: string)
    requires '\r' !in s
    ensures Unlines(Lines(s)) == if s == [] || s[|s| - 1] == '\n' then s else s + "\n"
    decreases |s|
  {
    if s != [] {
      match IndexOf(s, '\n')
      case None =>
        assert Lines(s) == [s];
        assert Unlines([s]) == s + "\n" + Unlines([]);
      case Some(i) =>
        var rest := s[i + 1..];
        assert s == s[..i] + "\n" + rest;
        assert '\r' !in s[..i] by {
          assert forall k :: 0 <= k < i ==> s[..i][k] == s[k];
        }
        assert '\r' !in rest by {
          assert forall k :: 0 <= k < |rest| ==> rest[k] == s[i + 1 + k];
        }
        assert DropCarriageReturn(s[..i]) == s[..i];
        LinesRoundTrip(rest);
        var ls := Lines(s);
        assert ls == [s[..i]] + Lines(rest);
        assert ls[1..] == Lines(rest);
        if rest != [] {
          assert rest[|rest| - 1] == s[|s| - 1];
          assert s[..i] + "\n" + (rest + "\n") == s + "\n";
        }
    }
  }

  /** Length of the run of non-whitespace characters at the front of `s`. */
  function WordLength(s: string): (n: nat)
    ensures n <= |s| && (n < |s| ==> IsWhitespace(s[n]))
    ensures forall i :: 0 <= i < n ==> !IsWhitespace(s[i])
    ensures s != [] && !IsWhitespace(s[0]) ==> n >= 1
  {
    if s == [] || IsWhitespace(s[0]) then 0 else 1 + WordLength(s[1..])
  }

  /** `str::split_whitespace`: the maximal runs of non-whitespace characters, in order. */
  function SplitWhitespace(s: string): seq<string>
    decreases |s|
  {
    var t := TrimStart(s);
    if t == [] then []
    else
      var n := WordLength(t);
      [t[..n]] + SplitWhitespace(t[n..])
  }

  /** Every string of `ws` is a word. */
  predicate AllWords(ws: seq<string>) {
    forall i :: 0 <= i < |ws| ==> IsWord(ws[i])
  }

  lemma AllWordsCons(w: string, rest: seq<string>)
    requires IsWord(w) && AllWords(rest)
    ensures AllWords([w] + rest)
  {
    forall i | 0 <= i < |[w] + rest|
      ensures IsWord(([w] + rest)[i])
    {
      if i > 0 {
        assert ([w] + rest)[i] == rest[i - 1];
      }
    }
  }

  /** The run `WordLength` measures is a word when `s` starts with a non-whitespace character. */
  lemma FirstWord(s: string)
    requires s != [] && !IsWhitespace(s[0])
    ensures IsWord(s[..WordLength(s)])
  {
    var w := s[..WordLength(s)];
    assert forall i :: 0 <= i < |w| ==> w[i] == s[i];
  }

  /** Every piece `split_whitespace` yields is a word, and a blank string yields none. */
  lemma {:induction false} SplitWhitespaceWords(s: string)
    decreases |s|
    ensures AllWords(SplitWhitespace(s))
    ensures AllWhitespace(s) <==> SplitWhitespace(s) == []
  {
    var t := TrimStart(s);
    TrimStartDrops(s);
    if t != [] {
      assert s[|s| - |t|] == t[0];
      var n := WordLength(t);
      FirstWord(t);
      SplitWhitespaceWords(t[n..]);
      AllWordsCons(t[..n], SplitWhitespace(t[n..]));
    } else {
      assert s == s[..|s| - |t|];
    }
  }

  /** Maps ASCII upper-case letters to lower case and leaves every other character alone. */
  function AsciiLower(s: string): (r: string)
    ensures |r| == |s|
    ensures forall i :: 0 <= i < |s| ==> r[i] == if 'A' <= s[i] <= 'Z' then (s[i] as int + 32) as char else s[i]
  {
    seq(|s|, i requires 0 <= i < |s| => if 'A' <= s[i] <= 'Z' then (s[i] as int + 32) as char else s[i])
  }
}
