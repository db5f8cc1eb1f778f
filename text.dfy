/**
 * The few Python string operations the indexer and the now-playing tool rely on,
 * stated over `seq<char>`: `strip`, `lower`, substring `in`, `split`, `splitlines`,
 * `join` and decimal formatting of integers.
 */
module Text {

  /** Characters Python's argument-less `str.strip()` removes (`str.isspace()`). */
  const Whitespace: set<char> := {
    '\t', '\n', '\U{0B}', '\U{0C}', '\r', '\U{1C}', '\U{1D}', '\U{1E}', '\U{1F}', ' ',
    '\U{85}', '\U{A0}', '\U{1680}', '\U{2000}', '\U{2001}', '\U{2002}', '\U{2003}',
    '\U{2004}', '\U{2005}', '\U{2006}', '\U{2007}', '\U{2008}', '\U{2009}', '\U{200A}',
    '\U{2028}', '\U{2029}', '\U{202F}', '\U{205F}', '\U{3000}'
  }

  /** Characters at which Python's `str.splitlines()` breaks a line. */
  const LineBreaks: set<char> := {
    '\n', '\r', '\U{0B}', '\U{0C}', '\U{1C}', '\U{1D}', '\U{1E}', '\U{85}', '\U{2028}', '\U{2029}'
  }

  // ---------------------------------------------------------------- strip

  /** Number of leading characters of `s` that belong to `cs`. */
  function LeadCount(s: string, cs: set<char>): (n: nat)
    ensures n <= |s|
    ensures forall k | 0 <= k < n :: s[k] in cs
    ensures n < |s| ==> s[n] !in cs
  {
    if s == [] || s[0] !in cs then 0 else 1 + LeadCount(s[1..], cs)
  }

  /** Number of trailing characters of `s` that belong to `cs`. */
  function TrailCount(s: string, cs: set<char>): (n: nat)
    ensures n <= |s|
    ensures forall k | |s| - n <= k < |s| :: s[k] in cs
    ensures n < |s| ==> s[|s| - 1 - n] !in cs
  {
    if s == [] || s[|s| - 1] !in cs then 0 else 1 + TrailCount(s[..|s| - 1], cs)
  }

  /** `r` sits at position `i` of `s`, and everything around it belongs to `cs`. */
  ghost predicate FramedBy(s: string, r: string, i: int, cs: set<char>) {
    0 <= i && i + |r| <= |s| && s[i..i + |r|] == r
    && (forall k | 0 <= k < i :: s[k] in cs)
    && (forall k | i + |r| <= k < |s| :: s[k] in cs)
  }

  /** Python's `s.strip(chars)`: drop the longest prefix and suffix made of `cs`. */
  function StripSet(s: string, cs: set<char>): (r: string)
    ensures r != [] ==> r[0] !in cs && r[|r| - 1] !in cs
    ensures exists i :: FramedBy(s, r, i, cs)
  {
    var a := LeadCount(s, cs);
    var t := s[a..];
    var b := TrailCount(t, cs);
    assert forall k | |t| - b <= k < |t| :: s[a + k] == t[k];
    var r := t[..|t| - b];
    assert s[a..a + |r|] == r;
    assert FramedBy(s, r, a, cs);
    r
  }

  /** Python's `s.strip()`. */
  function Strip(s: string): string {
    StripSet(s, Whitespace)
  }

  /** A string that starts and ends with a non-space character is its own stripped form. */
  lemma StripKeeps(s: string)
    requires s != [] && s[0] !in Whitespace && s[|s| - 1] !in Whitespace
    ensures Strip(s) == s
  {
    assert s[0..] == s;
  }

  /** Stripping twice removes nothing more: `x.strip().strip() == x.strip()`. */
  lemma StripSetIdempotent(s: string, cs: set<char>)
    ensures StripSet(StripSet(s, cs), cs) == StripSet(s, cs)
  {
    var r := StripSet(s, cs);
    assert LeadCount(r, cs) == 0;
    assert TrailCount(r[0..], cs) == 0;
    assert r[0..][..|r|] == r;
  }

  // ---------------------------------------------------------------- lower

  /** Python's `str.lower()` on ASCII letters; every other character is kept. */
  function LowerChar(c: char): char {
    if 'A' <= c <= 'Z' then (c as int + 32) as char else c
  }

  /** Python's `s.lower()`, character by character. */
  function Lower(s: string): (r: string)
    ensures |r| == |s|
    ensures forall i | 0 <= i < |s| :: r[i] == LowerChar(s[i])
  {
    seq(|s|, i requires 0 <= i < |s| => LowerChar(s[i]))
  }

  /** A string without upper-case ASCII letters is its own lower-case form. */
  lemma LowerKeeps(s: string)
    requires forall i | 0 <= i < |s| :: !('A' <= s[i] <= 'Z')
    ensures Lower(s) == s
  {
  }

  // ---------------------------------------------------------------- substring

  /** `needle` occurs in `hay` at position `i`. */
  ghost predicate OccursAt(needle: string, hay: string, i: int) {
    0 <= i && i + |needle| <= |hay| && hay[i..i + |needle|] == needle
  }

  /** An occurrence in `hay` is either a prefix or an occurrence in `hay[1..]`, shifted by one. */
  lemma OccursAtSplit(needle: string, hay: string, i: int)
    requires hay != []
    ensures OccursAt(needle, hay, i) <==>
              (i == 0 && needle <= hay) || (i >= 1 && OccursAt(needle, hay[1..], i - 1))
  {
    if i >= 1 && i + |needle| <= |hay| {
      assert hay[1..][i - 1..i - 1 + |needle|] == hay[i..i + |needle|];
    }
    if i == 0 && |needle| <= |hay| {
      assert hay[..|needle|] == hay[0..|needle|];
    }
  }

  /** Python's `needle in hay` on strings. */
  function Contains(hay: string, needle: string): (b: bool)
    ensures b <==> exists i :: OccursAt(needle, hay, i)
  {
    if needle <= hay then
      assert OccursAt(needle, hay, 0);
      true
    else if |hay| <= |needle| then
      assert forall i :: !OccursAt(needle, hay, i) by {
        forall i ensures !OccursAt(needle, hay, i) {
          if i == 0 && |needle| <= |hay| {
            assert hay[..|needle|] == hay[0..|needle|];
          }
        }
      }
      false
    else
      var b := Contains(hay[1..], needle);
      forall i ensures OccursAt(needle, hay, i) <==> i >= 1 && OccursAt(needle, hay[1..], i - 1) {
        OccursAtSplit(needle, hay, i);
      }
      assert b ==> exists i :: OccursAt(needle, hay, i) by {
        if b {
          var j :| OccursAt(needle, hay[1..], j);
          assert OccursAt(needle, hay, j + 1);
        }
      }
      b
  }

  /** Every character of a substring occurs in the string that contains it. */
  lemma ContainsHasChars(hay: string, needle: string, k: int)
    requires Contains(hay, needle) && 0 <= k < |needle|
    ensures needle[k] in hay
  {
    var i :| OccursAt(needle, hay, i);
    assert hay[i..i + |needle|][k] == hay[i + k];
  }

  /** Python's `s.rfind(c)`: the position of the last `c` in `s`, or -1. */
  function LastIndex(s: string, c: char): (i: int)
    ensures -1 <= i < |s|
    ensures i >= 0 ==> s[i] == c
    ensures forall j | i < j < |s| :: s[j] != c
  {
    if s == [] then -1
    else if s[|s| - 1] == c then |s| - 1
    else
      var i := LastIndex(s[..|s| - 1], c);
      assert forall j | i < j < |s| - 1 :: s[..|s| - 1][j] == s[j];
      i
  }

  /** Python's `s.find(c)`: the position of the first `c` in `s`, or -1. */
  function FirstIndex(s: string, c: char): (i: int)
    ensures -1 <= i < |s|
    ensures i >= 0 ==> s[i] == c
    ensures forall j | 0 <= j < |s| && (i < 0 || j < i) :: s[j] != c
  {
    if s == [] then -1
    else if s[0] == c then 0
    else
      var i := FirstIndex(s[1..], c);
      assert forall j | 0 < j < |s| :: s[1..][j - 1] == s[j];
      if i < 0 then -1 else i + 1
  }

  /** A character that occurs is found. */
  lemma FirstIndexFound(s: string, c: char)
    requires c in s
    ensures 0 <= FirstIndex(s, c)
  {
    var j :| 0 <= j < |s| && s[j] == c;
  }

  // ---------------------------------------------------------------- split / join

  /** Python's `sep.join(parts)`. */
  function Join(parts: seq<string>, sep: string): string {
    if parts == [] then []
    else if |parts| == 1 then parts[0]
    else parts[0] + sep + Join(parts[1..], sep)
  }

  /** Every character of a joined piece occurs in the joined string. */
  lemma {:induction false} JoinHasPartChars(parts: seq<string>, sep: string, i: int, k: int)
    requires 0 <= i < |parts| && 0 <= k < |parts[i]|
    ensures parts[i][k] in Join(parts, sep)
    decreases i
  {
    if |parts| > 1 {
      if i == 0 {
        assert Join(parts, sep)[k] == parts[0][k];
      } else {
        JoinHasPartChars(parts[1..], sep, i - 1, k);
        var rest := Join(parts[1..], sep);
        var n := |parts[0] + sep|;
        var m :| 0 <= m < |rest| && rest[m] == parts[i][k];
        assert Join(parts, sep)[n + m] == rest[m];
      }
    }
  }

  /** Position of the first occurrence of `needle` in `hay`, or -1 when there is none. */
  function Find(hay: string, needle: string): (r: int)
    ensures -1 <= r
    ensures r >= 0 ==> OccursAt(needle, hay, r)
    ensures r >= 0 ==> forall j | 0 <= j < r :: !OccursAt(needle, hay, j)
    ensures r == -1 <==> !Contains(hay, needle)
    decreases |hay|
  {
    if needle <= hay then
      assert OccursAt(needle, hay, 0);
      0
    else if |hay| <= |needle| then -1
    else
      var k := Find(hay[1..], needle);
      forall j ensures OccursAt(needle, hay, j) <==> j >= 1 && OccursAt(needle, hay[1..], j - 1) {
        OccursAtSplit(needle, hay, j);
      }
      if k == -1 then -1 else k + 1
  }

  /** Python's `s.split(sep)` for a non-empty separator (an empty one raises). */
  function SplitOn(s: string, sep: string): (parts: seq<string>)
    requires sep != []
    ensures |parts| >= 1
    ensures Join(parts, sep) == s
    ensures forall i | 0 <= i < |parts| :: !Contains(parts[i], sep)
    ensures |parts| == 1 <==> !Contains(s, sep)
    decreases |s|
  {
    var i := Find(s, sep);
    if i == -1 then [s]
    else
      var rest := SplitOn(s[i + |sep|..], sep);
      SplitOnStep(s, sep, i);
      [s[..i]] + rest
  }

  /** With a separator present, splitting gives at least two pieces, and after the first come the rest's. */
  lemma SplitOnFirst(s: string, sep: string)
    requires sep != [] && Contains(s, sep)
    ensures 0 <= Find(s, sep) && Find(s, sep) + |sep| <= |s|
    ensures |SplitOn(s, sep)| >= 2
    ensures SplitOn(s, sep)[1..] == SplitOn(s[Find(s, sep) + |sep|..], sep)
  {
  }

  /** What follows the last occurrence of `sep` in `s`, or all of `s` when there is none. */
  function AfterLast(s: string, sep: string): string
    requires sep != []
    decreases |s|
  {
    var i := Find(s, sep);
    if i < 0 then s else AfterLast(s[i + |sep|..], sep)
  }

  /** The last piece of a split is what follows the last separator. */
  lemma {:induction false} SplitOnLastIsAfterLast(s: string, sep: string)
    requires sep != []
    ensures SplitOn(s, sep)[|SplitOn(s, sep)| - 1] == AfterLast(s, sep)
    decreases |s|
  {
    if Find(s, sep) >= 0 {
      var i := Find(s, sep);
      SplitOnFirst(s, sep);
      SplitOnLastIsAfterLast(s[i + |sep|..], sep);
      LastOfTail(SplitOn(s, sep));
    }
  }

  lemma LastOfTail(xs: seq<string>)
    requires |xs| >= 2
    ensures xs[|xs| - 1] == xs[1..][|xs[1..]| - 1]
  {
  }

  /** Without a separator, splitting gives the whole string. */
  lemma SplitOnNone(s: string, sep: string)
    requires sep != [] && !Contains(s, sep)
    ensures SplitOn(s, sep) == [s]
  {
  }

  /** Cutting at the first occurrence leaves a head without the separator. */
  lemma SplitOnStep(s: string, sep: string, i: int)
    requires sep != [] && OccursAt(sep, s, i)
    requires forall j | 0 <= j < i :: !OccursAt(sep, s, j)
    ensures !Contains(s[..i], sep)
    ensures s == s[..i] + sep + s[i + |sep|..]
  {
    HeadHasNoSep(s, sep, i);
    ThreeParts(s, i, i + |sep|);
  }

  lemma ThreeParts(s: string, i: int, j: int)
    requires 0 <= i <= j <= |s|
    ensures s == s[..i] + s[i..j] + s[j..]
  {
    assert s == s[..i] + s[i..];
    assert s[i..] == s[i..j] + s[j..];
  }

  /** No occurrence starts before `i`, so none lies inside `s[..i]`. */
  lemma HeadHasNoSep(s: string, sep: string, i: int)
    requires sep != [] && 0 <= i <= |s|
    requires forall j | 0 <= j < i :: !OccursAt(sep, s, j)
    ensures !Contains(s[..i], sep)
  {
    var head := s[..i];
    forall j ensures !OccursAt(sep, head, j) {
      if 0 <= j && j + |sep| <= i {
        assert head[j..j + |sep|] == s[j..j + |sep|];
        assert !OccursAt(sep, s, j);
      }
    }
  }

  /** Python's `s.split(c)` for a one-character separator. */
  function Split(s: string, c: char): (parts: seq<string>)
    ensures |parts| >= 1
    ensures Join(parts, [c]) == s
    ensures forall i | 0 <= i < |parts| :: c !in parts[i]
  {
    var parts := SplitOn(s, [c]);
    forall i, k | 0 <= i < |parts| && 0 <= k < |parts[i]| ensures parts[i][k] != c {
      assert !OccursAt([c], parts[i], k);
      assert parts[i][k..k + 1] == [parts[i][k]];
    }
    parts
  }

  /** A string without the separator splits into itself alone. */
  lemma SplitWithout(s: string, c: char)
    requires c !in s
    ensures Split(s, c) == [s]
  {
    forall i ensures !OccursAt([c], s, i) {
      if 0 <= i && i + 1 <= |s| {
        assert s[i..i + 1] == [s[i]];
      }
    }
  }

  /** Splitting peels off everything before the first separator as the first piece. */
  lemma SplitCons(a: string, b: string, c: char)
    requires c !in a
    ensures Split(a + [c] + b, c) == [a] + Split(b, c)
  {
    var s := a + [c] + b;
    assert s[|a|..|a| + 1] == [c];
    assert OccursAt([c], s, |a|);
    var r := Find(s, [c]);
    assert s[r..r + 1] == [s[r]];
    assert r == |a|;
    assert s[..|a|] == a && s[|a| + 1..] == b;
  }

  /** Python's `s.replace(from, to)` for single characters. */
  function ReplaceChar(s: string, from: char, to: char): (r: string)
    ensures |r| == |s|
    ensures forall i | 0 <= i < |s| :: r[i] == if s[i] == from then to else s[i]
  {
    seq(|s|, i requires 0 <= i < |s| => if s[i] == from then to else s[i])
  }

  /** Python's `s.splitlines()`: break at every line boundary, `\r\n` counting as one. */
  function SplitLines(s: string): (lines: seq<string>)
    ensures forall i, k | 0 <= i < |lines| && 0 <= k < |lines[i]| :: lines[i][k] !in LineBreaks
    ensures s == [] <==> lines == []
    decreases |s|
  {
    if s == [] then []
    else
      var n := BreakFree(s);
      if n == |s| then [s]
      else
        var skip := if s[n] == '\r' && n + 1 < |s| && s[n + 1] == '\n' then 2 else 1;
        [s[..n]] + SplitLines(s[n + skip..])
  }

  /** The only line boundary `s` contains, if any, is '\n'. */
  predicate OnlyNewlines(s: string) {
    forall k | 0 <= k < |s| :: s[k] in LineBreaks ==> s[k] == '\n'
  }

  lemma OnlyNewlinesSuffix(s: string, i: nat)
    requires OnlyNewlines(s) && i <= |s|
    ensures OnlyNewlines(s[i..])
  {
    forall k | 0 <= k < |s[i..]| && s[i..][k] in LineBreaks
      ensures s[i..][k] == '\n'
    {
      assert s[i..][k] == s[i + k];
    }
  }

  /**
   * The lines are the text between the breaks: for text whose only line boundary is '\n' and
   * that does not end with one, joining the lines with '\n' gives the text back.
   */
  lemma {:induction false} SplitLinesJoin(s: string)
    requires OnlyNewlines(s)
    requires s != [] ==> s[|s| - 1] != '\n'
    ensures Join(SplitLines(s), "\n") == s
    decreases |s|
  {
    if s != [] {
      var n := BreakFree(s);
      if n < |s| {
        FirstNewline(s, n);
        var rest := s[n + 1..];
        SplitLinesJoin(rest);
        SplitLinesAtNewline(s, n);
        JoinCons(s[..n], SplitLines(rest), "\n");
      } else {
        SplitLinesWhole(s);
      }
    }
  }

  /** The first break of such text is a '\n' with more text after it, which is again such text. */
  lemma FirstNewline(s: string, n: nat)
    requires OnlyNewlines(s) && s != [] && s[|s| - 1] != '\n'
    requires n == BreakFree(s) && n < |s|
    ensures s[n] == '\n' && n + 1 < |s|
    ensures s == s[..n] + "\n" + s[n + 1..]
    ensures OnlyNewlines(s[n + 1..]) && s[n + 1..][|s[n + 1..]| - 1] != '\n'
  {
    OnlyNewlinesSuffix(s, n + 1);
  }

  /** Text without a line boundary is a single line. */
  lemma SplitLinesWhole(s: string)
    requires s != [] && BreakFree(s) == |s|
    ensures SplitLines(s) == [s]
  {
  }

  /** A '\n' ends the first line, and the rest is split on its own. */
  lemma SplitLinesAtNewline(s: string, n: nat)
    requires n == BreakFree(s) && n < |s| && s[n] == '\n'
    ensures SplitLines(s) == [s[..n]] + SplitLines(s[n + 1..])
  {
    assert s[n] != '\r';
  }

  lemma JoinCons(head: string, tail: seq<string>, sep: string)
    requires tail != []
    ensures Join([head] + tail, sep) == head + sep + Join(tail, sep)
  {
    assert ([head] + tail)[1..] == tail;
  }

  /** Length of the longest prefix of `s` without a line boundary. */
  function BreakFree(s: string): (n: nat)
    ensures n <= |s|
    ensures forall k | 0 <= k < n :: s[k] !in LineBreaks
    ensures n < |s| ==> s[n] in LineBreaks
  {
    if s == [] || s[0] in LineBreaks then 0 else 1 + BreakFree(s[1..])
  }

  // ---------------------------------------------------------------- integers

  function DigitChar(d: nat): char
    requires d < 10
  {
    ('0' as int + d) as char
  }

  /** Python's `str(n)` for a natural number. */
  function NatToString(n: nat): (s: string)
    ensures |s| >= 1
    ensures forall k | 0 <= k < |s| :: '0' <= s[k] <= '9'
    ensures n < 10 <==> |s| == 1
  {
    if n < 10 then [DigitChar(n)] else NatToString(n / 10) + [DigitChar(n % 10)]
  }

  /** Python's `str(i)` for an integer. */
  function IntToString(i: int): string {
    if i < 0 then "-" + NatToString(-i) else NatToString(i)
  }

  /** The value of a string of decimal digits. */
  function DigitsValue(s: string): nat
    requires forall k | 0 <= k < |s| :: '0' <= s[k] <= '9'
  {
    if s == [] then 0 else 10 * DigitsValue(s[..|s| - 1]) + (s[|s| - 1] as int - '0' as int)
  }

  /** Reading back what `NatToString` wrote gives the number. */
  lemma {:induction false} NatToStringRoundTrip(n: nat)
    ensures DigitsValue(NatToString(n)) == n
  {
    if n >= 10 {
      NatToStringRoundTrip(n / 10);
      var s := NatToString(n);
      assert s[..|s| - 1] == NatToString(n / 10);
    }
  }
}
