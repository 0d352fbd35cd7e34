/**
 * The handful of Python string operations the webhook relies on:
 * `p in s`, `s.find(p)`, `s.split(sep)`, `s.split(sep, 1)`, `s.lower()`
 * (ASCII letters only) and `s.strip()`.
 */
module Text {
  import opened Wrappers

  /** `p` occurs in `s` at index `i`. */
  predicate OccursAt(s: string, p: string, i: int) {
    0 <= i && i + |p| <= |s| && s[i..i + |p|] == p
  }

  /** Index of the first occurrence of `p` in `s`: Python's `s.find(p)`, with None for -1. */
  function Find(s: string, p: string): (r: Option<nat>)
    ensures r.Some? ==> OccursAt(s, p, r.value)
    ensures r.Some? ==> forall j :: 0 <= j < r.value ==> !OccursAt(s, p, j)
    ensures r.None? ==> forall j :: !OccursAt(s, p, j)
    decreases |s|
  {
    if |p| <= |s| && s[..|p|] == p then
      assert OccursAt(s, p, 0);
      Some(0)
    else if |s| == 0 then None
    else
      assert forall j :: 0 <= j ==> (OccursAt(s, p, j + 1) <==> OccursAt(s[1..], p, j)) by {
        forall j | 0 <= j ensures OccursAt(s, p, j + 1) <==> OccursAt(s[1..], p, j) {
          OccursShifted(s, p, j);
        }
      }
      assert forall j :: OccursAt(s, p, j) && j > 0 ==> OccursAt(s[1..], p, j - 1);
      match Find(s[1..], p)
      case None => None
      case Some(i) => Some(i + 1)
  }

  /** An occurrence one place further in `s` is an occurrence in `s` without its first character. */
  lemma OccursShifted(s: string, p: string, j: int)
    requires |s| > 0 && 0 <= j
    ensures OccursAt(s, p, j + 1) <==> OccursAt(s[1..], p, j)
  {
    if 0 <= j && j + 1 + |p| <= |s| {
      SliceOfSlice(s, 1, |s|, j, j + |p|);
      assert s[1..][j..j + |p|] == s[j + 1..j + 1 + |p|];
    }
  }

  /** A slice of a slice is a slice. */
  lemma SliceOfSlice(s: string, lo: int, hi: int, i: int, j: int)
    requires 0 <= lo <= hi <= |s| && 0 <= i <= j <= hi - lo
    ensures s[lo..hi][i..j] == s[lo + i..lo + j]
  {
    assert forall k :: 0 <= k < j - i ==> s[lo..hi][i..j][k] == s[lo + i..lo + j][k];
  }

  /** Python's `p in s`. */
  predicate Contains(s: string, p: string) {
    Find(s, p).Some?
  }

  /** An occurrence at a known position makes `p in s` true. */
  lemma ContainsAt(s: string, p: string, i: int)
    requires OccursAt(s, p, i)
    ensures Contains(s, p)
  {
  }

  /** Whatever surrounds `p`, the text still contains it. */
  lemma ContainsMiddle(a: string, p: string, b: string)
    ensures OccursAt(a + p + b, p, |a|)
    ensures Contains(a + p + b, p)
  {
    assert (a + p + b)[|a|..|a| + |p|] == p;
    ContainsAt(a + p + b, p, |a|);
  }

  /** A text contains its own ending. */
  lemma ContainsEnd(s: string, p: string)
    ensures Contains(s + p, p)
  {
    assert (s + p)[|s|..|s| + |p|] == p;
    ContainsAt(s + p, p, |s|);
  }

  /** Appending to a text keeps what it contains. */
  lemma ContainsExtend(s: string, t: string, p: string)
    requires Contains(s, p)
    ensures Contains(s + t, p)
  {
    var i := Find(s, p).value;
    assert (s + t)[i..i + |p|] == s[i..i + |p|];
    ContainsAt(s + t, p, i);
  }

  /** Prepending to a text keeps what it contains. */
  lemma ContainsPrepend(s: string, t: string, p: string)
    requires Contains(t, p)
    ensures Contains(s + t, p)
  {
    var i := Find(t, p).value;
    assert (s + t)[|s| + i..|s| + i + |p|] == t[i..i + |p|];
    ContainsAt(s + t, p, |s| + i);
  }

  /** A single character of `s` is found in `s`. */
  lemma ContainsChar(s: string, i: nat)
    requires i < |s|
    ensures Contains(s, [s[i]])
  {
    assert OccursAt(s, [s[i]], i);
  }

  /** Every character of an occurrence of `p` is a character of `p`. */
  lemma OccurrenceChars(s: string, p: string, i: int)
    requires OccursAt(s, p, i)
    ensures forall k :: i <= k < i + |p| ==> s[k] in p
  {
    forall k | i <= k < i + |p| ensures s[k] in p {
      assert s[k] == p[k - i];
    }
  }

  /** An occurrence inside a slice of `s` is an occurrence in `s`, shifted by the slice's start. */
  lemma OccursInSlice(s: string, p: string, lo: int, hi: int, i: int)
    requires 0 <= lo <= hi <= |s|
    requires OccursAt(s[lo..hi], p, i)
    ensures OccursAt(s, p, lo + i)
  {
    SliceOfSlice(s, lo, hi, i, i + |p|);
  }

  /** An occurrence in `s` that lies inside a slice is an occurrence in the slice. */
  lemma OccursInside(s: string, p: string, lo: int, hi: int, i: int)
    requires 0 <= lo <= i && i + |p| <= hi <= |s|
    requires OccursAt(s, p, i)
    ensures OccursAt(s[lo..hi], p, i - lo)
  {
    SliceOfSlice(s, lo, hi, i - lo, i - lo + |p|);
  }

  /**
   * An occurrence of `p` in `a + b` lies inside `a` or inside `b`, unless it
   * straddles the seam; it cannot when the last character of `a` or the first
   * character of `b` is not a character of `p`.
   */
  lemma ContainsSplit(a: string, b: string, p: string)
    requires (|a| > 0 && a[|a| - 1] !in p) || (|b| > 0 && b[0] !in p)
    ensures Contains(a + b, p) ==> Contains(a, p) || Contains(b, p)
  {
    var s := a + b;
    if Contains(s, p) {
      var i := Find(s, p).value;
      OccurrenceChars(s, p, i);
      assert |a| > 0 ==> s[|a| - 1] == a[|a| - 1];
      assert |b| > 0 ==> s[|a|] == b[0];
      assert a == s[0..|a|] && b == s[|a|..|s|];
      if i + |p| <= |a| {
        OccursInside(s, p, 0, |a|, i);
      } else if |a| <= i {
        OccursInside(s, p, |a|, |s|, i);
      }
    }
  }

  /** `p` occurs nowhere in a text that lacks its first character. */
  lemma MissingFirstChar(s: string, p: string)
    requires |p| > 0 && p[0] !in s
    ensures !Contains(s, p)
  {
  }

  /**
   * No occurrence of `p` in `a + m + c` when `m` has none, no occurrence can
   * start in `a` or in `c` (neither holds the first character of `p`), and none
   * can run from `m` into `c` (the first character of `c` is not in `p`).
   */
  lemma NoOccurrenceAround(a: string, m: string, c: string, p: string)
    requires |p| > 0 && p[0] !in a && p[0] !in c
    requires !Contains(m, p)
    requires |c| == 0 || c[0] !in p
    ensures !Contains(a + m + c, p)
  {
    var s := a + m + c;
    if Contains(s, p) {
      var i := Find(s, p).value;
      OccurrenceChars(s, p, i);
      assert |c| > 0 ==> s[|a| + |m|] == c[0];
      assert m == s[|a|..|a| + |m|];
      if |a| <= i && i + |p| <= |a| + |m| {
        OccursInside(s, p, |a|, |a| + |m|, i);
      }
    }
  }

  /**
   * The first occurrence of `p` in `a + p + b` is the one after `a`, when `a`
   * has none and its last character cannot start an occurrence across the seam.
   */
  lemma FindAfter(a: string, p: string, b: string)
    requires !Contains(a, p)
    requires |a| == 0 || a[|a| - 1] !in p
    ensures Find(a + p + b, p) == Some(|a|)
  {
    var s := a + p + b;
    ContainsMiddle(a, p, b);
    var i := Find(s, p).value;
    OccurrenceChars(s, p, i);
    assert |a| > 0 ==> s[|a| - 1] == a[|a| - 1];
    assert a == s[..|a|];
    if i + |p| <= |a| {
      OccursInside(s, p, 0, |a|, i);
    }
  }

  /** An occurrence of `p` in `s[..i]` is one in `s`, before `i`. */
  lemma OccurrenceInPrefix(s: string, p: string, i: nat)
    requires i <= |s|
    ensures Contains(s[..i], p) ==> Find(s[..i], p).value + |p| <= i && OccursAt(s, p, Find(s[..i], p).value)
  {
    if Contains(s[..i], p) {
      OccursInSlice(s, p, 0, i, Find(s[..i], p).value);
    }
  }

  /** Python's `s.startswith(p)`. */
  predicate StartsWith(s: string, p: string) {
    |p| <= |s| && s[..|p|] == p
  }

  /** Python's `s.endswith(p)`. */
  predicate EndsWith(s: string, p: string) {
    |p| <= |s| && s[|s| - |p|..] == p
  }

  /** Appending to a text keeps its start. */
  lemma StartsWithExtend(s: string, t: string, p: string)
    requires StartsWith(s, p)
    ensures StartsWith(s + t, p)
  {
    assert (s + t)[..|p|] == s[..|p|];
  }

  /** A text without `p` has no prefix with `p`. */
  lemma PrefixKeepsAbsence(s: string, p: string, i: nat)
    requires i <= |s| && !Contains(s, p)
    ensures !Contains(s[..i], p)
  {
    OccurrenceInPrefix(s, p, i);
  }

  /** Python's `sep.join(parts)`. */
  function Join(parts: seq<string>, sep: string): string
    requires |parts| >= 1
  {
    if |parts| == 1 then parts[0] else parts[0] + sep + Join(parts[1..], sep)
  }

  /** Python's `s.split(sep)` for a non-empty separator. */
  function Split(s: string, sep: string): (r: seq<string>)
    requires |sep| > 0
    ensures |r| >= 1
    ensures Contains(s, sep) <==> |r| >= 2
    ensures r[0] == (if Contains(s, sep) then s[..Find(s, sep).value] else s)
    decreases |s|
  {
    match Find(s, sep)
    case None => [s]
    case Some(i) => [s[..i]] + Split(s[i + |sep|..], sep)
  }

  /** The parts of `split`, joined by the separator, give the text back. */
  lemma {:induction false} SplitJoin(s: string, sep: string)
    requires |sep| > 0
    ensures Join(Split(s, sep), sep) == s
    decreases |s|
  {
    if Find(s, sep).Some? {
      var i := Find(s, sep).value;
      var rest := Split(s[i + |sep|..], sep);
      SplitJoin(s[i + |sep|..], sep);
      assert Split(s, sep) == [s[..i]] + rest;
      assert (Split(s, sep))[1..] == rest;
      assert s == s[..i] + s[i..i + |sep|] + s[i + |sep|..];
    }
  }

  /** No part of `split` holds the separator. */
  lemma {:induction false} SplitPartsClean(s: string, sep: string)
    requires |sep| > 0
    ensures forall k :: 0 <= k < |Split(s, sep)| ==> !Contains(Split(s, sep)[k], sep)
    decreases |s|
  {
    if Find(s, sep).Some? {
      var i := Find(s, sep).value;
      var r, rest := Split(s, sep), Split(s[i + |sep|..], sep);
      SplitPartsClean(s[i + |sep|..], sep);
      assert r == [s[..i]] + rest;
      OccurrenceInPrefix(s, sep, i);
      forall k | 0 <= k < |r| ensures !Contains(r[k], sep) {
        if k > 0 {
          assert r[k] == rest[k - 1];
        }
      }
    }
  }

  /** The second part of `split` is the text between the first occurrence and the next one (or the end). */
  lemma SplitSecond(s: string, sep: string)
    requires |sep| > 0 && Contains(s, sep)
    ensures var t := s[Find(s, sep).value + |sep|..];
      Split(s, sep)[1] == if Contains(t, sep) then t[..Find(t, sep).value] else t
  {
    var i := Find(s, sep).value;
    assert Split(s, sep) == [s[..i]] + Split(s[i + |sep|..], sep);
  }

  /** Python's `s.split(sep, 1)`: at most one cut, at the first occurrence. */
  function SplitOnce(s: string, sep: string): (r: seq<string>)
    requires |sep| > 0
    ensures Contains(s, sep) <==> |r| == 2
    ensures !Contains(s, sep) <==> r == [s]
    ensures |r| == 2 ==> r[0] + sep + r[1] == s && !Contains(r[0], sep)
  {
    match Find(s, sep)
    case None => [s]
    case Some(i) =>
      assert s[..i] + sep + s[i + |sep|..] == s by {
        assert s == s[..i] + s[i..i + |sep|] + s[i + |sep|..];
      }
      assert !Contains(s[..i], sep) by { OccurrenceInPrefix(s, sep, i); }
      [s[..i], s[i + |sep|..]]
  }

  /** ASCII lower-casing of one character. */
  function LowerChar(c: char): char {
    if 'A' <= c <= 'Z' then (c as int + 32) as char else c
  }

  /** Python's `s.lower()`, restricted to ASCII letters. */
  function Lower(s: string): (r: string)
    ensures |r| == |s|
    ensures forall i :: 0 <= i < |s| ==> r[i] == LowerChar(s[i])
  {
    seq(|s|, i requires 0 <= i < |s| => LowerChar(s[i]))
  }

  /** The characters Python's `str.strip()` removes (`str.isspace`). */
  predicate IsSpace(c: char) {
    || c == ' '
    || ('\t' <= c <= '\r')
    || ('\U{1C}' <= c <= '\U{1F}')
    || c == '\U{85}' || c == '\U{A0}' || c == '\U{1680}'
    || ('\U{2000}' <= c <= '\U{200A}')
    || c == '\U{2028}' || c == '\U{2029}' || c == '\U{202F}' || c == '\U{205F}' || c == '\U{3000}'
  }

  /** The first index from `i` on that does not hold whitespace (`|s|` if none). */
  function SkipSpaces(s: string, i: nat): (k: nat)
    requires i <= |s|
    ensures i <= k <= |s|
    ensures forall j :: i <= j < k ==> IsSpace(s[j])
    ensures k == |s| || !IsSpace(s[k])
    decreases |s| - i
  {
    if i < |s| && IsSpace(s[i]) then SkipSpaces(s, i + 1) else i
  }

  /** The end of `s[lo..hi]` once its trailing whitespace is cut off. */
  function SkipSpacesBack(s: string, lo: nat, hi: nat): (k: nat)
    requires lo <= hi <= |s|
    ensures lo <= k <= hi
    ensures forall j :: k <= j < hi ==> IsSpace(s[j])
    ensures k == lo || !IsSpace(s[k - 1])
    decreases hi
  {
    if lo < hi && IsSpace(s[hi - 1]) then SkipSpacesBack(s, lo, hi - 1) else hi
  }

  /** Every character of `s` is whitespace (vacuously so for the empty text). */
  predicate AllSpace(s: string) {
    forall i :: 0 <= i < |s| ==> IsSpace(s[i])
  }

  /** `r` is the slice of `s` at `lo` and everything of `s` outside it is whitespace. */
  predicate StrippedAt(s: string, r: string, lo: int) {
    && 0 <= lo <= |s| - |r| && r == s[lo..lo + |r|]
    && (forall i :: 0 <= i < lo ==> IsSpace(s[i]))
    && (forall i :: lo + |r| <= i < |s| ==> IsSpace(s[i]))
  }

  /**
   * Python's `s.strip()`: the longest slice of `s` that neither starts nor ends
   * with whitespace, every character cut away being whitespace.
   */
  function Strip(s: string): (r: string)
    ensures exists lo :: StrippedAt(s, r, lo)
    ensures r == [] || (!IsSpace(r[0]) && !IsSpace(r[|r| - 1]))
    ensures r == [] <==> AllSpace(s)
  {
    var lo := SkipSpaces(s, 0);
    var hi := SkipSpacesBack(s, lo, |s|);
    assert StrippedAt(s, s[lo..hi], lo);
    assert lo < hi ==> s[lo..hi][0] == s[lo] && s[lo..hi][hi - lo - 1] == s[hi - 1];
    s[lo..hi]
  }

  /** A text that neither starts nor ends with whitespace is its own strip. */
  lemma StripUnchanged(s: string)
    requires s == [] || (!IsSpace(s[0]) && !IsSpace(s[|s| - 1]))
    ensures Strip(s) == s
  {
    assert SkipSpaces(s, 0) == 0;
    assert SkipSpacesBack(s, 0, |s|) == |s|;
    assert s[0..|s|] == s;
  }
}
