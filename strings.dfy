/** The handful of Python `str` operations the connector relies on, with the
    properties the rest of the model needs: prefix and suffix tests, substring
    search, `split`/`join` on one delimiter character, `strip` and its one-sided
    forms, ASCII lower-casing and decimal rendering of integers. */
module Strings {

  predicate StartsWith(s: string, prefix: string) {
    |prefix| <= |s| && s[..|prefix|] == prefix
  }

  predicate EndsWith(s: string, suffix: string) {
    |suffix| <= |s| && s[|s| - |suffix|..] == suffix
  }

  /** `sub` occurs in `s` starting at index `i`. */
  predicate OccursAt(s: string, sub: string, i: int) {
    0 <= i && i + |sub| <= |s| && s[i..i + |sub|] == sub
  }

  /** Python's `sub in s`. */
  predicate Contains(s: string, sub: string) {
    exists i | 0 <= i <= |s| - |sub| :: OccursAt(s, sub, i)
  }

  lemma OccursAtShift(s: string, sub: string, i: int)
    requires |s| > 0 && 0 <= i
    ensures OccursAt(s[1..], sub, i) <==> OccursAt(s, sub, i + 1)
  {
    if 0 <= i && i + |sub| <= |s| - 1 {
      assert s[1..][i..i + |sub|] == s[i + 1..i + 1 + |sub|];
    }
  }

  // ---------------------------------------------------------------------------
  // split and join on a single delimiter character

  function CountChar(s: string, d: char): nat {
    if |s| == 0 then 0 else (if s[0] == d then 1 else 0) + CountChar(s[1..], d)
  }

  /** Python's `s.split(d)` for a one-character separator: never empty, one more
      part than there are delimiters, and no part holds the delimiter. */
  function Split(s: string, d: char): (parts: seq<string>)
    ensures |parts| == CountChar(s, d) + 1
    ensures forall k :: 0 <= k < |parts| ==> d !in parts[k]
    decreases |s|
  {
    if |s| == 0 then [""]
    else
      var rest := Split(s[1..], d);
      if s[0] == d then [""] + rest
      else [[s[0]] + rest[0]] + rest[1..]
  }

  /** The last part of a split is the suffix after the last delimiter: the
      whole string when there is none. */
  lemma {:induction false} SplitLast(s: string, d: char)
    ensures var last := Split(s, d)[|Split(s, d)| - 1];
            EndsWith(s, last) && (|last| == |s| || s[|s| - |last| - 1] == d)
    decreases |s|
  {
    if |s| > 0 {
      var rest := Split(s[1..], d);
      if s[0] != d && |rest| == 1 {
        SplitLastWhole(s, d);
      } else {
        SplitLast(s[1..], d);
        SplitLastOfTail(s, d);
        if s[0] != d {
          LastPartShort(s[1..], d);
        }
        SuffixOfRest(s, d, rest[|rest| - 1]);
      }
    }
  }

  /** A suffix of `s[1..]` that is all of it or follows a delimiter is a suffix
      of `s` that follows a delimiter, when `s` starts with one or the suffix is shorter. */
  lemma SuffixOfRest(s: string, d: char, tail: string)
    requires |s| > 0
    requires EndsWith(s[1..], tail) && (|tail| == |s| - 1 || s[1..][|s| - 1 - |tail| - 1] == d)
    requires s[0] != d ==> |tail| < |s| - 1
    ensures EndsWith(s, tail) && (|tail| == |s| || s[|s| - |tail| - 1] == d)
  {
    assert s[1..][|s| - 1 - |tail|..] == s[|s| - |tail|..];
  }

  /** With more than one part, the last part is shorter than the string. */
  lemma LastPartShort(t: string, d: char)
    requires |Split(t, d)| > 1 && EndsWith(t, Split(t, d)[|Split(t, d)| - 1])
    ensures |Split(t, d)[|Split(t, d)| - 1]| < |t|
  {
    var last := Split(t, d)[|Split(t, d)| - 1];
    if |last| == |t| {
      assert last == t;
      CountCharAbsent(t, d);
    }
  }

  /** Without a delimiter after the first character, the only part is the whole string. */
  lemma SplitLastWhole(s: string, d: char)
    requires |s| > 0 && s[0] != d && |Split(s[1..], d)| == 1
    ensures Split(s, d) == [s]
  {
    JoinSplit(s[1..], d);
    assert s == [s[0]] + s[1..];
  }

  /** Otherwise the last part is the last part of the rest. */
  lemma SplitLastOfTail(s: string, d: char)
    requires |s| > 0 && (s[0] == d || |Split(s[1..], d)| > 1)
    ensures Split(s, d)[|Split(s, d)| - 1] == Split(s[1..], d)[|Split(s[1..], d)| - 1]
  {
  }

  /** A string without the delimiter counts none of it. */
  lemma {:induction false} CountCharAbsent(s: string, d: char)
    requires d !in s
    ensures CountChar(s, d) == 0
    decreases |s|
  {
    if |s| > 0 {
      assert s[0] in s;
      CountCharAbsent(s[1..], d);
    }
  }

  /** Python's `d.join(parts)`. */
  function Join(parts: seq<string>, d: char): string
    decreases |parts|
  {
    if |parts| == 0 then ""
    else if |parts| == 1 then parts[0]
    else parts[0] + [d] + Join(parts[1..], d)
  }

  /** Joining what was split gives the string back. */
  lemma {:induction false} JoinSplit(s: string, d: char)
    ensures Join(Split(s, d), d) == s
    decreases |s|
  {
    if |s| > 0 {
      JoinSplit(s[1..], d);
      var rest := Split(s[1..], d);
      if s[0] == d {
        assert s == [d] + s[1..];
      } else if |rest| == 1 {
        assert s == [s[0]] + s[1..];
      } else {
        assert Join(rest, d) == rest[0] + [d] + Join(rest[1..], d);
        assert s == [s[0]] + s[1..];
      }
    }
  }

  lemma {:induction false} SplitAppend(p: string, t: string, d: char)
    requires d !in p
    ensures Split(p + t, d) == [p + Split(t, d)[0]] + Split(t, d)[1..]
    decreases |p|
  {
    if |p| > 0 {
      assert (p + t)[1..] == p[1..] + t;
      SplitAppend(p[1..], t, d);
      assert [p[0]] + (p[1..] + Split(t, d)[0]) == p + Split(t, d)[0];
    } else {
      var parts := Split(t, d);
      assert p + t == t && p + parts[0] == parts[0];
      assert parts == [parts[0]] + parts[1..];
    }
  }

  /** Splitting what was joined gives the parts back, when no part holds the delimiter. */
  lemma {:induction false} SplitJoin(parts: seq<string>, d: char)
    requires |parts| >= 1
    requires forall k :: 0 <= k < |parts| ==> d !in parts[k]
    ensures Split(Join(parts, d), d) == parts
    decreases |parts|
  {
    if |parts| == 1 {
      SplitAppend(parts[0], "", d);
      assert parts[0] + "" == parts[0];
    } else {
      var t := [d] + Join(parts[1..], d);
      SplitJoin(parts[1..], d);
      assert Join(parts, d) == parts[0] + t;
      SplitAppend(parts[0], t, d);
      assert t[1..] == Join(parts[1..], d);
      assert Split(t, d) == [""] + parts[1..];
      assert parts[0] + "" == parts[0];
    }
  }

  // ---------------------------------------------------------------------------
  // strip, lstrip and rstrip

  /** Removes every leading character that `drop` selects. */
  function TrimStart(s: string, drop: char -> bool): (r: string)
    ensures |r| <= |s| && r == s[|s| - |r|..]
    ensures forall i :: 0 <= i < |s| - |r| ==> drop(s[i])
    ensures |r| == 0 || !drop(r[0])
    decreases |s|
  {
    if |s| > 0 && drop(s[0]) then TrimStart(s[1..], drop) else s
  }

  /** Removes every trailing character that `drop` selects. */
  function TrimEnd(s: string, drop: char -> bool): (r: string)
    ensures |r| <= |s| && r == s[..|r|]
    ensures forall i :: |r| <= i < |s| ==> drop(s[i])
    ensures |r| == 0 || !drop(r[|r| - 1])
    decreases |s|
  {
    if |s| > 0 && drop(s[|s| - 1]) then TrimEnd(s[..|s| - 1], drop) else s
  }

  function Trim(s: string, drop: char -> bool): string {
    TrimEnd(TrimStart(s, drop), drop)
  }

  /** The character set argument of `strip(chars)`, `lstrip(chars)`, `rstrip(chars)`. */
  function InChars(chars: string): char -> bool {
    c => c in chars
  }

  /** Python's `str.isspace()` for one character. */
  predicate IsSpace(c: char) {
    var n := c as int;
    (0x09 <= n <= 0x0D) || (0x1C <= n <= 0x20) || n == 0x85 || n == 0xA0 || n == 0x1680
    || (0x2000 <= n <= 0x200A) || n == 0x2028 || n == 0x2029 || n == 0x202F || n == 0x205F
    || n == 0x3000
  }

  /** Python's argument-less `s.strip()`. */
  function StripSpace(s: string): (r: string)
    ensures |r| == 0 || (!IsSpace(r[0]) && !IsSpace(r[|r| - 1]))
  {
    Trim(s, c => IsSpace(c))
  }

  // ---------------------------------------------------------------------------
  // case and numbers

  function LowerChar(c: char): char {
    if 'A' <= c <= 'Z' then (c as int - 'A' as int + 'a' as int) as char else c
  }

  /** ASCII lower-casing, standing for Python's `str.lower()`. */
  function Lower(s: string): (r: string)
    ensures |r| == |s|
    ensures forall i :: 0 <= i < |s| ==> r[i] == LowerChar(s[i])
  {
    seq(|s|, i requires 0 <= i < |s| => LowerChar(s[i]))
  }

  lemma LowerIdempotent(s: string)
    ensures Lower(Lower(s)) == Lower(s)
  {
  }

  function DigitChar(n: nat): char
    requires n < 10
  {
    ('0' as int + n) as char
  }

  predicate IsDigit(c: char) {
    '0' <= c <= '9'
  }

  /** Decimal rendering of a natural number, as Python's `str(n)`. */
  function NatToString(n: nat): (s: string)
    ensures |s| >= 1
    ensures forall i :: 0 <= i < |s| ==> IsDigit(s[i])
  {
    if n < 10 then [DigitChar(n)] else NatToString(n / 10) + [DigitChar(n % 10)]
  }

  /** Reads a run of decimal digits back into a number. */
  function ParseDigits(s: string): nat
    requires forall i :: 0 <= i < |s| ==> IsDigit(s[i])
  {
    if |s| == 0 then 0
    else
      var last := s[|s| - 1];
      assert IsDigit(last);
      ParseDigits(s[..|s| - 1]) * 10 + (last as int - '0' as int)
  }

  /** Reading back the rendering of a number gives the number. */
  lemma {:induction false} ParseNatToString(n: nat)
    ensures ParseDigits(NatToString(n)) == n
  {
    if n >= 10 {
      var s := NatToString(n);
      assert s[..|s| - 1] == NatToString(n / 10);
      ParseNatToString(n / 10);
    }
  }

  /** Python's `str(i)` for an integer. */
  function IntToString(i: int): (s: string)
    ensures |s| >= 1
  {
    if i < 0 then "-" + NatToString(-i) else NatToString(i)
  }

  // ---------------------------------------------------------------------------
  // first piece of a split, and literal replacement

  /** Python's `s.split(sep)[0]`: the part of `s` before the first occurrence of `sep`. */
  function BeforeFirst(s: string, sep: string): (r: string)
    requires |sep| > 0
    ensures StartsWith(s, r)
    ensures forall i :: 0 <= i < |r| ==> !OccursAt(s, sep, i)
    ensures |r| == |s| || OccursAt(s, sep, |r|)
    decreases |s|
  {
    if StartsWith(s, sep) then ""
    else if |s| == 0 then ""
    else
      var rest := BeforeFirst(s[1..], sep);
      forall i | 0 <= i < |rest| + 1 ensures !OccursAt(s, sep, i) {
        if i > 0 { OccursAtShift(s, sep, i - 1); }
      }
      OccursAtShift(s, sep, |rest|);
      [s[0]] + rest
  }

  /** Replaces, left to right, every non-overlapping occurrence of `pat` in `s`
      by `rep` (Python's `re.sub` with a pattern that matches only itself). */
  function ReplaceAll(s: string, pat: string, rep: string): (r: string)
    requires |pat| > 0
    ensures |s| < |pat| ==> r == s
    decreases |s|
  {
    if StartsWith(s, pat) then rep + ReplaceAll(s[|pat|..], pat, rep)
    else if |s| == 0 then ""
    else [s[0]] + ReplaceAll(s[1..], pat, rep)
  }

  /** A string without the pattern is left as it is. */
  lemma {:induction false} ReplaceAllAbsent(s: string, pat: string, rep: string)
    requires |pat| > 0
    requires !Contains(s, pat)
    ensures ReplaceAll(s, pat, rep) == s
    decreases |s|
  {
    if |s| > 0 {
      assert !OccursAt(s, pat, 0);
      assert !StartsWith(s, pat);
      forall i | 0 <= i <= |s| - 1 - |pat| ensures !OccursAt(s[1..], pat, i) {
        OccursAtShift(s, pat, i);
      }
      ReplaceAllAbsent(s[1..], pat, rep);
    }
  }

  /** An occurrence of the pattern is replaced, so the result differs from the input. */
  lemma {:induction false} ReplaceAllRewritesOccurrence(s: string, pat: string, rep: string, i: nat)
    requires |pat| > 0 && |rep| < |pat|
    requires OccursAt(s, pat, i)
    ensures |ReplaceAll(s, pat, rep)| < |s|
    decreases |s|
  {
    if StartsWith(s, pat) {
      ReplaceAllNoLonger(s[|pat|..], pat, rep);
    } else {
      assert i > 0;
      OccursAtShift(s, pat, i - 1);
      ReplaceAllRewritesOccurrence(s[1..], pat, rep, i - 1);
    }
  }

  lemma {:induction false} ReplaceAllNoLonger(s: string, pat: string, rep: string)
    requires |pat| > 0 && |rep| <= |pat|
    ensures |ReplaceAll(s, pat, rep)| <= |s|
    decreases |s|
  {
    if StartsWith(s, pat) {
      ReplaceAllNoLonger(s[|pat|..], pat, rep);
    } else if |s| > 0 {
      ReplaceAllNoLonger(s[1..], pat, rep);
    }
  }
}
