/**
 * Python `str` operations used throughout the runtime, written out over
 * `seq<char>`: `find`, `startswith`, `strip`, `split`, `splitlines`,
 * `replace`, `join`, `lower` onto ASCII and decimal formatting of integers.
 */
module Strings {
  import opened Wrappers

  /** One byte of an encoded text or a response body. */
  newtype Byte = x: int | 0 <= x < 256

  // ---------------------------------------------------------------- occurrences

  predicate IsPrefix(p: string, s: string) {
    |p| <= |s| && s[..|p|] == p
  }

  predicate IsSuffix(p: string, s: string) {
    |p| <= |s| && s[|s| - |p|..] == p
  }

  /** `pat` occurs in `s` starting at index `i`. */
  predicate OccursAt(s: string, pat: string, i: int) {
    0 <= i && i + |pat| <= |s| && s[i..i + |pat|] == pat
  }

  predicate Contains(s: string, pat: string) {
    exists i | 0 <= i <= |s| :: OccursAt(s, pat, i)
  }

  /** Python `s.find(pat, from)`: the least index >= `from` where `pat` occurs. */
  function FindFrom(s: string, pat: string, from: nat): (r: Option<nat>)
    ensures r.Some? ==> from <= r.value && OccursAt(s, pat, r.value)
    ensures r.Some? ==> forall j :: from <= j < r.value ==> !OccursAt(s, pat, j)
    ensures r.None? ==> forall j :: from <= j ==> !OccursAt(s, pat, j)
    decreases |s| - from
  {
    if from + |pat| > |s| then None
    else if s[from..from + |pat|] == pat then Some(from)
    else FindFrom(s, pat, from + 1)
  }

  /** The first occurrence at or after `from` is what `FindFrom` returns. */
  lemma FindFromIs(s: string, pat: string, from: nat, i: nat)
    requires from <= i && OccursAt(s, pat, i)
    requires forall j :: from <= j < i ==> !OccursAt(s, pat, j)
    ensures FindFrom(s, pat, from) == Some(i)
  {
  }

  /** Python `s.find(pat)`. */
  function Find(s: string, pat: string): Option<nat> {
    FindFrom(s, pat, 0)
  }

  /** A pattern the text does not contain is not found from any index. */
  lemma NoneFound(s: string, pat: string, from: nat)
    requires !Contains(s, pat)
    ensures FindFrom(s, pat, from) == None
  {
  }

  lemma FindIsContains(s: string, pat: string)
    ensures Find(s, pat).Some? <==> Contains(s, pat)
  {
    if Contains(s, pat) {
      var i :| OccursAt(s, pat, i);
      assert FindFrom(s, pat, 0).Some?;
    }
  }

  /** A pattern holding a character the text lacks does not occur in it. */
  lemma ForeignCharNotContained(s: string, pat: string, j: nat)
    requires j < |pat| && pat[j] !in s
    ensures !Contains(s, pat)
  {
    forall i | 0 <= i <= |s| ensures !OccursAt(s, pat, i) {
      if i + |pat| <= |s| {
        assert s[i..i + |pat|][j] == s[i + j] && s[i + j] in s;
      }
    }
  }

  lemma OccursInPrefix(s: string, t: string, pat: string, i: int)
    requires OccursAt(s, pat, i)
    ensures OccursAt(s + t, pat, i)
  {
    assert (s + t)[i..i + |pat|] == s[i..i + |pat|];
  }

  lemma OccursInSuffix(s: string, t: string, pat: string, i: int)
    requires OccursAt(t, pat, i)
    ensures OccursAt(s + t, pat, |s| + i)
  {
    assert (s + t)[|s| + i..|s| + i + |pat|] == t[i..i + |pat|];
  }

  /** An occurrence lying wholly inside a slice is an occurrence in the slice. */
  lemma OccursInSlice(s: string, pat: string, lo: nat, hi: nat, i: int)
    requires lo <= i && i + |pat| <= hi <= |s| && OccursAt(s, pat, i)
    ensures OccursAt(s[lo..hi], pat, i - lo)
  {
    forall k | 0 <= k < |pat| ensures s[lo..hi][i - lo..i - lo + |pat|][k] == pat[k] {
      assert s[i..i + |pat|][k] == pat[k];
    }
  }

  /** An occurrence inside a slice is an occurrence in the whole text. */
  lemma OccursInWhole(s: string, pat: string, lo: nat, hi: nat, i: int)
    requires lo <= hi <= |s| && OccursAt(s[lo..hi], pat, i)
    ensures OccursAt(s, pat, lo + i)
  {
    forall k | 0 <= k < |pat| ensures s[lo + i..lo + i + |pat|][k] == pat[k] {
      assert s[lo..hi][i..i + |pat|][k] == pat[k];
    }
  }

  /** An occurrence ending within a prefix of the text is an occurrence in that prefix. */
  lemma OccursInFront(t: string, front: string, pat: string, j: int)
    requires IsPrefix(front, t) && OccursAt(t, pat, j)
    ensures j + |pat| <= |front| ==> OccursAt(front, pat, j)
  {
    if j + |pat| <= |front| {
      assert front[j..j + |pat|] == t[j..j + |pat|];
    }
  }

  /** An occurrence lying in the left part of `a + b` is an occurrence in `a`. */
  lemma OccursInLeft(a: string, b: string, pat: string, j: int)
    requires OccursAt(a + b, pat, j) && j + |pat| <= |a|
    ensures OccursAt(a, pat, j)
  {
    assert (a + b)[j..j + |pat|] == a[j..j + |pat|];
  }

  /** An occurrence lying in the right part of `a + b` is an occurrence in `b`. */
  lemma OccursInRight(a: string, b: string, pat: string, j: int)
    requires OccursAt(a + b, pat, j) && |a| <= j
    ensures OccursAt(b, pat, j - |a|)
  {
    assert (a + b)[j..j + |pat|] == b[j - |a|..j - |a| + |pat|];
  }

  /** Both parts of a text without `pat` are without `pat`. */
  lemma PartsFree(a: string, b: string, pat: string)
    requires !Contains(a + b, pat)
    ensures !Contains(a, pat) && !Contains(b, pat)
  {
    forall j | OccursAt(a, pat, j) ensures OccursAt(a + b, pat, j) {
      OccursInPrefix(a, b, pat, j);
    }
    forall j | OccursAt(b, pat, j) ensures OccursAt(a + b, pat, |a| + j) {
      OccursInSuffix(a, b, pat, j);
    }
  }

  /** A slice of a text without `pat` is without `pat` too. */
  lemma SliceFree(s: string, pat: string, lo: nat, hi: nat)
    requires lo <= hi <= |s| && !Contains(s, pat)
    ensures !Contains(s[lo..hi], pat)
  {
    forall i | OccursAt(s[lo..hi], pat, i) ensures OccursAt(s, pat, lo + i) {
      OccursInWhole(s, pat, lo, hi, i);
    }
  }

  /** An occurrence of `pat` is an occurrence of each prefix of `pat`. */
  lemma OccursPrefix(s: string, pat: string, n: nat, i: int)
    requires OccursAt(s, pat, i) && n <= |pat|
    ensures OccursAt(s, pat[..n], i)
  {
    assert s[i..i + n] == s[i..i + |pat|][..n];
  }

  /** No proper suffix of `pat` is also a prefix of it, so two occurrences never overlap. */
  predicate NoSelfOverlap(pat: string) {
    forall d :: 0 < d < |pat| ==> pat[d..] != pat[..|pat| - d]
  }

  lemma SelfStraddle(s: string, pat: string, p: int, j: int)
    requires NoSelfOverlap(pat) && OccursAt(s, pat, p) && j < p < j + |pat|
    ensures !OccursAt(s, pat, j)
  {
    StraddleOverlap(s, pat, p, j);
  }

  /** Two occurrences `p - j` apart make the suffix of `pat` from `p - j` a prefix of it. */
  lemma StraddleOverlap(s: string, pat: string, p: int, j: int)
    requires OccursAt(s, pat, p) && j < p < j + |pat|
    ensures OccursAt(s, pat, j) ==> pat[p - j..] == pat[..|pat| - (p - j)]
  {
    if OccursAt(s, pat, j) {
      var d := p - j;
      forall i | 0 <= i < |pat| - d ensures pat[d..][i] == pat[..|pat| - d][i] {
        assert s[j..j + |pat|][d + i] == s[p + i] == s[p..p + |pat|][i];
      }
    }
  }

  /** In `pre + pat + rest`, with no `pat` inside `pre`, the first `pat` is the one after `pre`. */
  lemma FirstOccurrenceOf(pre: string, pat: string, rest: string)
    requires NoSelfOverlap(pat) && !Contains(pre, pat)
    ensures Find(pre + pat + rest, pat) == Some(|pre|)
  {
    var t := pre + pat + rest;
    assert t[|pre|..|pre| + |pat|] == pat;
    forall j | 0 <= j < |pre| ensures !OccursAt(t, pat, j) {
      if j + |pat| <= |pre| {
        if OccursAt(t, pat, j) {
          assert t[j..j + |pat|] == pre[j..j + |pat|];
          assert OccursAt(pre, pat, j);
        }
      } else {
        SelfStraddle(t, pat, |pre|, j);
      }
    }
    FindFromIs(t, pat, 0, |pre|);
  }

  // ---------------------------------------------------------------- Python slices

  /** Python `s[i:j]` for indices within bounds: empty when `j < i`. */
  function PySlice(s: string, i: nat, j: nat): (r: string)
    requires i <= |s| && j <= |s|
    ensures |r| == if i <= j then j - i else 0
  {
    if i <= j then s[i..j] else ""
  }

  /** `s[:n]`: the first `min(n, len(s))` characters. */
  function Prefix(s: string, n: nat): (r: string)
    ensures |r| == if |s| <= n then |s| else n
    ensures r == s[..|r|]
  {
    if |s| <= n then s else s[..n]
  }

  /** Where Python reads the slice bound `i` of a list of `n` items. */
  function SliceBound(i: int, n: nat): (r: nat)
    ensures r <= n
    ensures 0 <= i <= n ==> r == i
  {
    if i < 0 then (if i + n < 0 then 0 else i + n) else if i > n then n else i
  }

  // ---------------------------------------------------------------- whitespace

  /** Python `str.isspace` for one character. */
  predicate IsSpace(c: char) {
    c == ' ' || ('\t' <= c <= '\r') || ('\U{001C}' <= c <= '\U{001F}')
    || c == '\U{0085}' || c == '\U{00A0}' || c == '\U{1680}'
    || ('\U{2000}' <= c <= '\U{200A}') || c == '\U{2028}' || c == '\U{2029}'
    || c == '\U{202F}' || c == '\U{205F}' || c == '\U{3000}'
  }

  predicate AllSpace(s: string) {
    forall k :: 0 <= k < |s| ==> IsSpace(s[k])
  }

  /** Python `s.lstrip()`: drop the leading whitespace run. */
  function LStrip(s: string): string {
    if |s| > 0 && IsSpace(s[0]) then LStrip(s[1..]) else s
  }

  /** Python `s.rstrip()`: drop the trailing whitespace run. */
  function RStrip(s: string): string {
    if |s| > 0 && IsSpace(s[|s| - 1]) then RStrip(s[..|s| - 1]) else s
  }

  /** Python `s.strip()`. */
  function Strip(s: string): string {
    RStrip(LStrip(s))
  }

  lemma {:induction false} LStripShape(s: string)
    ensures IsSuffix(LStrip(s), s) && AllSpace(s[..|s| - |LStrip(s)|])
    ensures LStrip(s) == [] || !IsSpace(LStrip(s)[0])
  {
    if |s| > 0 && IsSpace(s[0]) {
      LStripShape(s[1..]);
      var r := LStrip(s[1..]);
      assert s[..|s| - |r|] == [s[0]] + s[1..][..|s[1..]| - |r|];
    }
  }

  lemma {:induction false} RStripShape(s: string)
    ensures IsPrefix(RStrip(s), s) && AllSpace(s[|RStrip(s)|..])
    ensures RStrip(s) == [] || !IsSpace(RStrip(s)[|RStrip(s)| - 1])
  {
    if |s| > 0 && IsSpace(s[|s| - 1]) {
      RStripShape(s[..|s| - 1]);
      var r := RStrip(s[..|s| - 1]);
      assert s[|r|..] == s[..|s| - 1][|r|..] + [s[|s| - 1]];
    }
  }

  /** `s.strip()` is a contiguous piece of `s`, with only whitespace cut on either side. */
  lemma StripShape(s: string)
    ensures var r := Strip(s);
      && (exists a :: 0 <= a && a + |r| <= |s| && r == s[a..a + |r|]
                      && AllSpace(s[..a]) && AllSpace(s[a + |r|..]))
      && (r == [] || (!IsSpace(r[0]) && !IsSpace(r[|r| - 1])))
  {
    var l := LStrip(s);
    LStripShape(s);
    RStripShape(l);
    var r := RStrip(l);
    var a := |s| - |l|;
    assert r == s[a..a + |r|];
    assert s[a + |r|..] == l[|r|..];
    if r != [] {
      assert r[0] == l[0];
    }
  }

  /** Text without outer whitespace is its own strip. */
  lemma {:induction false} StripOfStripped(s: string)
    requires s == [] || (!IsSpace(s[0]) && !IsSpace(s[|s| - 1]))
    ensures Strip(s) == s
  {
  }

  // ---------------------------------------------------------------- case

  /** U+212A KELVIN SIGN, which Python's `str.lower` turns into an ASCII `k`. */
  const KelvinSign: char := '\U{212A}'

  /**
   * Python `str.lower` for the characters it maps one to one onto ASCII:
   * the ASCII capitals and the Kelvin sign. Every other character is kept.
   */
  function LowerChar(c: char): (d: char)
    ensures 'A' <= c <= 'Z' ==> d != c && 'a' <= d <= 'z'
    ensures c == KelvinSign ==> d == 'k'
    ensures !('A' <= c <= 'Z') && c != KelvinSign ==> d == c
  {
    if 'A' <= c <= 'Z' then (c as int + 32) as char
    else if c == KelvinSign then 'k'
    else c
  }

  function Lower(s: string): (r: string)
    ensures |r| == |s| && forall k :: 0 <= k < |s| ==> r[k] == LowerChar(s[k])
  {
    seq(|s|, k requires 0 <= k < |s| => LowerChar(s[k]))
  }

  lemma LowerIdempotent(s: string)
    ensures Lower(Lower(s)) == Lower(s)
  {
  }

  // ---------------------------------------------------------------- join / replace

  /** Python `sep.join(parts)`. */
  function Join(parts: seq<string>, sep: string): (r: string)
    ensures |parts| == 0 ==> r == ""
    ensures |parts| == 1 ==> r == parts[0]
  {
    if |parts| == 0 then ""
    else if |parts| == 1 then parts[0]
    else parts[0] + sep + Join(parts[1..], sep)
  }

  lemma JoinAppend(parts: seq<string>, last: string, sep: string)
    requires |parts| > 0
    ensures Join(parts + [last], sep) == Join(parts, sep) + sep + last
  {
    if |parts| == 1 {
      assert parts + [last] == [parts[0], last];
    } else {
      assert (parts + [last])[1..] == parts[1..] + [last];
      JoinAppend(parts[1..], last, sep);
    }
  }

  /** Concatenation of all parts (Python `"".join(parts)`). */
  function Concat(parts: seq<string>): string {
    if |parts| == 0 then "" else parts[0] + Concat(parts[1..])
  }

  lemma ConcatAppend(parts: seq<string>, last: string)
    ensures Concat(parts + [last]) == Concat(parts) + last
  {
    if |parts| == 0 {
      assert parts + [last] == [last];
    } else {
      assert (parts + [last])[1..] == parts[1..] + [last];
      ConcatAppend(parts[1..], last);
    }
  }

  lemma {:induction false} ConcatOfAppend(a: seq<string>, b: seq<string>)
    ensures Concat(a + b) == Concat(a) + Concat(b)
  {
    if |a| == 0 {
      assert a + b == b;
    } else {
      assert (a + b)[1..] == a[1..] + b;
      ConcatOfAppend(a[1..], b);
    }
  }

  /**
   * Python `s.replace(pat, rep)` for a non-empty `pat`: every non-overlapping
   * occurrence, scanning left to right, is replaced.
   */
  function ReplaceAll(s: string, pat: string, rep: string): (r: string)
    requires |pat| > 0
    ensures !Contains(s, pat) ==> r == s
    decreases |s|
  {
    match FindFrom(s, pat, 0)
    case None => s
    case Some(i) => s[..i] + rep + ReplaceAll(s[i + |pat|..], pat, rep)
  }

  // ---------------------------------------------------------------- integers as text

  function DigitChar(d: nat): (c: char)
    requires d < 10
    ensures '0' <= c <= '9'
  {
    ('0' as int + d) as char
  }

  predicate IsDigit(c: char) {
    '0' <= c <= '9'
  }

  predicate AllDigits(s: string) {
    forall k :: 0 <= k < |s| ==> IsDigit(s[k])
  }

  /** Python `str(n)` for a natural number. */
  function NatToString(n: nat): (r: string)
    ensures |r| > 0 && AllDigits(r)
    ensures n < 10 ==> |r| == 1
  {
    if n < 10 then [DigitChar(n)] else NatToString(n / 10) + [DigitChar(n % 10)]
  }

  /** Python `int(s)` for a string of ASCII digits. */
  function DigitsValue(s: string): (n: nat)
    requires AllDigits(s)
  {
    if |s| == 0 then 0 else DigitsValue(s[..|s| - 1]) * 10 + (s[|s| - 1] as int - '0' as int)
  }

  lemma {:induction false} DigitsValueOfNatToString(n: nat)
    ensures DigitsValue(NatToString(n)) == n
  {
    var r := NatToString(n);
    if n >= 10 {
      DigitsValueOfNatToString(n / 10);
      assert r[..|r| - 1] == NatToString(n / 10);
    }
  }

  /** Python `str(i)` for any integer. */
  function IntToString(i: int): (r: string)
    ensures |r| > 0
    ensures i >= 0 ==> r == NatToString(i)
    ensures i < 0 ==> r == "-" + NatToString(-i)
    decreases if i < 0 then 1 else 0
  {
    if i < 0 then "-" + IntToString(-i) else NatToString(i)
  }

  // ---------------------------------------------------------------- splitting

  /** Python `s.split()` with no separator: the maximal runs of non-whitespace. */
  function SplitWhitespace(s: string): (words: seq<string>)
    decreases |s|
  {
    LStripShape(s);
    var t := LStrip(s);
    if t == [] then []
    else
      var n := WordLength(t);
      [t[..n]] + SplitWhitespace(t[n..])
  }

  /** Length of the non-whitespace run that starts `t`. */
  function WordLength(t: string): (n: nat)
    ensures n <= |t| && (n < |t| ==> IsSpace(t[n]))
    ensures forall k :: 0 <= k < n ==> !IsSpace(t[k])
    ensures |t| > 0 && !IsSpace(t[0]) ==> n > 0
  {
    if |t| == 0 || IsSpace(t[0]) then 0 else 1 + WordLength(t[1..])
  }

  /** Python `str.splitlines` line boundaries. */
  predicate IsLineBreak(c: char) {
    c == '\n' || c == '\r' || c == '\U{000B}' || c == '\U{000C}'
    || c == '\U{001C}' || c == '\U{001D}' || c == '\U{001E}'
    || c == '\U{0085}' || c == '\U{2028}' || c == '\U{2029}'
  }

  /** Index of the first line break in `s`, or `|s|`. */
  function FirstBreak(s: string): (k: nat)
    ensures k <= |s| && (k < |s| ==> IsLineBreak(s[k]))
    ensures forall j :: 0 <= j < k ==> !IsLineBreak(s[j])
  {
    if |s| == 0 || IsLineBreak(s[0]) then 0 else 1 + FirstBreak(s[1..])
  }

  /** Length of the first line of a non-empty `s`, its terminator included (`\r\n` counts as one). */
  function FirstLineLength(s: string): (e: nat)
    requires |s| > 0
    ensures 0 < e <= |s|
  {
    var k := FirstBreak(s);
    if k == |s| then |s|
    else if s[k] == '\r' && k + 1 < |s| && s[k + 1] == '\n' then k + 2
    else k + 1
  }

  /** Python `s.splitlines(keepends=True)`. */
  function SplitLinesKeepEnds(s: string): (lines: seq<string>)
    ensures forall l :: l in lines ==> |l| > 0
    decreases |s|
  {
    if |s| == 0 then []
    else
      var e := FirstLineLength(s);
      [s[..e]] + SplitLinesKeepEnds(s[e..])
  }

  lemma {:induction false} SplitLinesKeepEndsConcat(s: string)
    ensures Concat(SplitLinesKeepEnds(s)) == s
    decreases |s|
  {
    if |s| > 0 {
      var e := FirstLineLength(s);
      SplitLinesKeepEndsConcat(s[e..]);
      assert SplitLinesKeepEnds(s)[1..] == SplitLinesKeepEnds(s[e..]);
      assert s == s[..e] + s[e..];
    }
  }

  /** A line with its terminator (if any) removed. */
  function DropLineEnd(l: string): (r: string)
    ensures IsPrefix(r, l)
  {
    var k := FirstBreak(l);
    l[..k]
  }

  /** Python `s.splitlines()`: the lines without their terminators. */
  function SplitLines(s: string): (lines: seq<string>)
    ensures |lines| == |SplitLinesKeepEnds(s)|
    ensures forall i :: 0 <= i < |lines| ==> forall k :: 0 <= k < |lines[i]| ==> !IsLineBreak(lines[i][k])
  {
    var ks := SplitLinesKeepEnds(s);
    seq(|ks|, i requires 0 <= i < |ks| => DropLineEnd(ks[i]))
  }
}
