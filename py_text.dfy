/**
 * The Python `str` operations the pipeline relies on, modelled over ASCII:
 * `strip`, `lower`, `upper`, `find`, `rfind`, `replace(pat, "")`, `split(c)`,
 * `split()` (word counting), `sep.join(parts)`, slicing `s[:n]` and `str(n)`
 * for a non-negative integer.
 */
module PyText {

  /** `str.isspace` on the ASCII range. */
  predicate IsSpace(c: char) {
    c == ' ' || c == '\t' || c == '\n' || c == '\r' || c == '\U{000B}' || c == '\U{000C}'
    || ('\U{001C}' <= c <= '\U{001F}')
  }

  predicate AllSpace(s: string) {
    forall i :: 0 <= i < |s| ==> IsSpace(s[i])
  }

  /** The number of whitespace characters `s` starts with. */
  function Leading(s: string): (n: nat)
    ensures n <= |s|
  {
    if s != [] && IsSpace(s[0]) then 1 + Leading(s[1..]) else 0
  }

  /** The number of whitespace characters `s` ends with. */
  function Trailing(s: string): (n: nat)
    ensures n <= |s|
  {
    if s != [] && IsSpace(s[|s| - 1]) then 1 + Trailing(s[..|s| - 1]) else 0
  }

  /** The leading run is whitespace and is maximal. */
  lemma {:induction false} LeadingIsMaximal(s: string)
    ensures AllSpace(s[..Leading(s)])
    ensures Leading(s) < |s| ==> !IsSpace(s[Leading(s)])
  {
    if s != [] && IsSpace(s[0]) {
      LeadingIsMaximal(s[1..]);
      var n := Leading(s[1..]);
      var p := s[..n + 1];
      forall i | 0 <= i < |p| ensures IsSpace(p[i]) {
        if i > 0 {
          assert p[i] == s[1..][..n][i - 1];
        }
      }
    }
  }

  /** The trailing run is whitespace and is maximal. */
  lemma {:induction false} TrailingIsMaximal(s: string)
    ensures AllSpace(s[|s| - Trailing(s)..])
    ensures Trailing(s) < |s| ==> !IsSpace(s[|s| - Trailing(s) - 1])
  {
    if s != [] && IsSpace(s[|s| - 1]) {
      var t := s[..|s| - 1];
      TrailingIsMaximal(t);
      var n := Trailing(t);
      var p := s[|s| - n - 1..];
      forall i | 0 <= i < |p| ensures IsSpace(p[i]) {
        if i < n {
          assert p[i] == t[|t| - n..][i];
        }
      }
    }
  }

  /** `s.lstrip()` */
  function LStrip(s: string): (r: string)
    ensures |r| <= |s|
  {
    s[Leading(s)..]
  }

  /** `s.rstrip()` */
  function RStrip(s: string): (r: string)
    ensures |r| <= |s|
  {
    s[..|s| - Trailing(s)]
  }

  /** `s.strip()`: the text between the leading and the trailing whitespace. */
  function Strip(s: string): (r: string)
    ensures |r| <= |s|
  {
    RStrip(LStrip(s))
  }

  /** A stripped text neither starts nor ends with whitespace. */
  lemma StripEnds(s: string)
    ensures Strip(s) == [] || (!IsSpace(Strip(s)[0]) && !IsSpace(Strip(s)[|Strip(s)| - 1]))
  {
    var l := LStrip(s);
    LeadingIsMaximal(s);
    TrailingIsMaximal(l);
    var r := Strip(s);
    if r != [] {
      assert r[0] == l[0];
    }
  }

  /** What `strip` removes is whitespace, at either end. */
  lemma StripIsSlice(s: string)
    ensures exists a, b :: 0 <= a <= b <= |s| && Strip(s) == s[a..b] && AllSpace(s[..a]) && AllSpace(s[b..])
  {
    StripBounds(s);
    var a := Leading(s);
    var b := a + |Strip(s)|;
    assert 0 <= a <= b <= |s| && Strip(s) == s[a..b] && AllSpace(s[..a]) && AllSpace(s[b..]);
  }

  /** The stripped text is the slice between the leading and the trailing whitespace. */
  lemma StripBounds(s: string)
    ensures Leading(s) + |Strip(s)| <= |s|
    ensures Strip(s) == s[Leading(s)..Leading(s) + |Strip(s)|]
    ensures AllSpace(s[..Leading(s)]) && AllSpace(s[Leading(s) + |Strip(s)|..])
  {
    LeadingIsMaximal(s);
    StripTail(s);
  }

  /** What follows the stripped text is the trailing whitespace. */
  lemma StripTail(s: string)
    ensures Leading(s) + |Strip(s)| <= |s|
    ensures AllSpace(s[Leading(s) + |Strip(s)|..])
  {
    var l := LStrip(s);
    TrailingIsMaximal(l);
    assert s[Leading(s) + |Strip(s)|..] == l[|l| - Trailing(l)..];
  }

  lemma StripOfStripped(s: string)
    requires s == [] || (!IsSpace(s[0]) && !IsSpace(s[|s| - 1]))
    ensures Strip(s) == s
  {
  }

  /** Stripping twice is stripping once. */
  lemma StripIdempotent(s: string)
    ensures Strip(Strip(s)) == Strip(s)
  {
    StripEnds(s);
    StripOfStripped(Strip(s));
  }

  /** True when `s` holds a character that is not whitespace (Python: `bool(s.strip())`). */
  lemma StripEmptyIffAllSpace(s: string)
    ensures Strip(s) == [] <==> AllSpace(s)
  {
    var r := Strip(s);
    StripBounds(s);
    var a, b := Leading(s), Leading(s) + |r|;
    if r == [] {
      forall i | 0 <= i < |s| ensures IsSpace(s[i]) {
        if i < a { assert s[..a][i] == s[i]; } else { assert s[b..][i - b] == s[i]; }
      }
    } else {
      assert !IsSpace(s[a]) by { StripEnds(s); }
    }
  }

  function LowerChar(c: char): char {
    if 'A' <= c <= 'Z' then (c as int + 32) as char else c
  }

  function UpperChar(c: char): char {
    if 'a' <= c <= 'z' then (c as int - 32) as char else c
  }

  /** `s.lower()` on ASCII letters. */
  function Lower(s: string): (r: string)
    ensures |r| == |s|
  {
    seq(|s|, i requires 0 <= i < |s| => LowerChar(s[i]))
  }

  /** `s.upper()` on ASCII letters. */
  function Upper(s: string): (r: string)
    ensures |r| == |s|
  {
    seq(|s|, i requires 0 <= i < |s| => UpperChar(s[i]))
  }

  /** `s.find(c)`: the first index of `c`, or -1. */
  function Find(s: string, c: char): (r: int)
    ensures -1 <= r < |s|
    ensures r == -1 <==> c !in s
    ensures r >= 0 ==> s[r] == c && c !in s[..r]
  {
    if s == [] then -1
    else if s[0] == c then 0
    else
      var k := Find(s[1..], c);
      assert s[1..][..if k < 0 then 0 else k] == s[1..if k < 0 then 1 else k + 1];
      if k < 0 then -1 else k + 1
  }

  /** `s.rfind(c)`: the last index of `c`, or -1. */
  function RFind(s: string, c: char): (r: int)
    ensures -1 <= r < |s|
    ensures r == -1 <==> c !in s
    ensures r >= 0 ==> s[r] == c && c !in s[r + 1..]
  {
    if s == [] then -1
    else
      var last := |s| - 1;
      assert s == s[..last] + [s[last]];
      if s[last] == c then last
      else
        var k := RFind(s[..last], c);
        assert k >= 0 ==> s[k + 1..] == s[..last][k + 1..] + [s[last]];
        k
  }

  /** `t in s` for strings: `t` occurs in `s` as a substring. */
  predicate Contains(s: string, t: string) {
    exists i :: 0 <= i <= |s| - |t| && OccursAt(s, t, i)
  }

  predicate OccursAt(s: string, t: string, i: int) {
    0 <= i <= |s| - |t| && s[i..i + |t|] == t
  }

  /** `s.replace(pat, "")`: one left-to-right pass removing non-overlapping occurrences. */
  function RemoveAll(s: string, pat: string): (r: string)
    requires pat != []
    ensures |r| <= |s|
    decreases |s|
  {
    if |s| < |pat| then s
    else if s[..|pat|] == pat then RemoveAll(s[|pat|..], pat)
    else [s[0]] + RemoveAll(s[1..], pat)
  }

  /** Text without an occurrence of the pattern is left alone. */
  lemma {:induction false} RemoveAllAbsent(s: string, pat: string)
    requires pat != [] && !Contains(s, pat)
    ensures RemoveAll(s, pat) == s
    decreases |s|
  {
    if |s| >= |pat| {
      assert !OccursAt(s, pat, 0);
      assert !Contains(s[1..], pat) by {
        forall i | OccursAt(s[1..], pat, i) ensures OccursAt(s, pat, i + 1) {
          assert s[i + 1..i + 1 + |pat|] == s[1..][i..i + |pat|];
        }
      }
      RemoveAllAbsent(s[1..], pat);
    }
  }

  /** `sep.join(parts)` */
  function Join(parts: seq<string>, sep: string): string {
    if parts == [] then []
    else if |parts| == 1 then parts[0]
    else parts[0] + sep + Join(parts[1..], sep)
  }

  /** `s.split(c)` for a single-character separator: always at least one piece. */
  function SplitOn(s: string, c: char): (r: seq<string>)
    ensures |r| >= 1
    ensures forall p :: p in r ==> c !in p
    decreases |s|
  {
    if c !in s then [s]
    else
      var i := Find(s, c);
      [s[..i]] + SplitOn(s[i + 1..], c)
  }

  lemma FindAfterPrefix(a: string, c: char, b: string)
    requires c !in a
    ensures Find(a + [c] + b, c) == |a|
  {
    var s := a + [c] + b;
    var f := Find(s, c);
    assert s[|a|] == c;
  }

  /** Splitting a joined list on a separator absent from its parts gives the parts back. */
  lemma {:induction false} SplitJoin(parts: seq<string>, c: char)
    requires |parts| >= 1
    requires forall p :: p in parts ==> c !in p
    ensures SplitOn(Join(parts, [c]), c) == parts
  {
    if |parts| > 1 {
      var rest := Join(parts[1..], [c]);
      var s := parts[0] + [c] + rest;
      assert Join(parts, [c]) == s;
      FindAfterPrefix(parts[0], c, rest);
      assert s[..|parts[0]|] == parts[0];
      assert s[|parts[0]| + 1..] == rest;
      SplitJoin(parts[1..], c);
      assert parts == [parts[0]] + parts[1..];
    }
  }

  /**
   * The number of maximal runs of non-whitespace characters, that is
   * `len(s.split())`; `afterSpace` says whether the previous character was
   * whitespace (or absent).
   */
  function CountWords(s: string, afterSpace: bool): nat {
    if s == [] then 0
    else (if !IsSpace(s[0]) && afterSpace then 1 else 0) + CountWords(s[1..], IsSpace(s[0]))
  }

  /** `len(s.split())` */
  function WordCount(s: string): nat {
    CountWords(s, true)
  }

  lemma {:induction false} CountWordsTrailingSpace(t: string, c: char, b: bool)
    requires IsSpace(c)
    ensures CountWords(t + [c], b) == CountWords(t, b)
  {
    if t == [] {
      assert [c][1..] == [];
    } else {
      assert (t + [c])[1..] == t[1..] + [c];
      CountWordsTrailingSpace(t[1..], c, IsSpace(t[0]));
    }
  }

  /** A non-space character appended to a word continues that word. */
  lemma {:induction false} CountWordsExtendWord(t: string, c: char, b: bool)
    requires t != [] && !IsSpace(t[|t| - 1]) && !IsSpace(c)
    ensures CountWords(t + [c], b) == CountWords(t, b)
  {
    assert (t + [c])[0] == t[0];
    assert (t + [c])[1..] == t[1..] + [c];
    if |t| > 1 {
      CountWordsExtendWord(t[1..], c, IsSpace(t[0]));
    } else {
      assert [c][1..] == [] && t[1..] == [];
    }
  }

  lemma {:induction false} WordCountLStrip(s: string)
    ensures WordCount(LStrip(s)) == WordCount(s)
  {
    if s != [] && IsSpace(s[0]) {
      WordCountLStrip(s[1..]);
      assert LStrip(s) == LStrip(s[1..]);
    }
  }

  lemma {:induction false} WordCountRStrip(s: string, b: bool)
    ensures CountWords(RStrip(s), b) == CountWords(s, b)
  {
    if s != [] && IsSpace(s[|s| - 1]) {
      var t := s[..|s| - 1];
      assert s == t + [s[|s| - 1]];
      CountWordsTrailingSpace(t, s[|s| - 1], b);
      WordCountRStrip(t, b);
      assert RStrip(s) == s[..|t| - Trailing(t)];
      assert s[..|t| - Trailing(t)] == t[..|t| - Trailing(t)];
    } else {
      assert RStrip(s) == s[..|s|] == s;
    }
  }

  /** Stripping never changes the number of words. */
  lemma WordCountStrip(s: string)
    ensures WordCount(Strip(s)) == WordCount(s)
  {
    WordCountLStrip(s);
    WordCountRStrip(LStrip(s), true);
  }

  /** `s[:n]` on a sequence. */
  function Take<T>(s: seq<T>, n: nat): (r: seq<T>)
    ensures |r| == if |s| <= n then |s| else n
    ensures r == s[..|r|]
  {
    if |s| <= n then s else s[..n]
  }

  function DigitChar(d: nat): (c: char)
    requires d < 10
    ensures '0' <= c <= '9'
  {
    ('0' as int + d) as char
  }

  /** `str(n)` for n >= 0: decimal digits, most significant first. */
  function NatToString(n: nat): (r: string)
    ensures |r| >= 1
    ensures forall i :: 0 <= i < |r| ==> '0' <= r[i] <= '9'
    ensures n >= 10 ==> |r| >= 2
  {
    if n < 10 then [DigitChar(n)] else NatToString(n / 10) + [DigitChar(n % 10)]
  }

  /** Different numbers print differently. */
  lemma {:induction false} NatToStringInjective(a: nat, b: nat)
    requires NatToString(a) == NatToString(b)
    ensures a == b
  {
    var ra, rb := NatToString(a), NatToString(b);
    if a >= 10 && b >= 10 {
      assert ra[|ra| - 1] == DigitChar(a % 10) && rb[|rb| - 1] == DigitChar(b % 10);
      assert ra[..|ra| - 1] == NatToString(a / 10);
      assert rb[..|rb| - 1] == NatToString(b / 10);
      NatToStringInjective(a / 10, b / 10);
    } else if a < 10 && b < 10 {
      assert ra[0] == DigitChar(a);
    }
  }

  /** The number of occurrences of `c` in `s`. */
  function CountChar(s: string, c: char): nat {
    if s == [] then 0 else (if s[0] == c then 1 else 0) + CountChar(s[1..], c)
  }

  lemma {:induction false} CountCharAppend(a: string, b: string, c: char)
    ensures CountChar(a + b, c) == CountChar(a, c) + CountChar(b, c)
  {
    if a != [] {
      assert (a + b)[0] == a[0];
      assert (a + b)[1..] == a[1..] + b;
      CountCharAppend(a[1..], b, c);
    } else {
      assert a + b == b;
    }
  }

  lemma {:induction false} CountCharAbsent(s: string, c: char)
    requires c !in s
    ensures CountChar(s, c) == 0
  {
    if s != [] {
      CountCharAbsent(s[1..], c);
    }
  }
}
