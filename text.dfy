/**
 * Character classes and string operations that the line parser, the settings
 * parser and the firmware's line format are built from.
 */
module Text {

  /** An ASCII decimal digit: what `\d` matches in this model. */
  predicate IsDigit(c: char) { '0' <= c <= '9' }

  /** The ASCII whitespace characters, taken as what `\s` matches. */
  predicate IsSpace(c: char) {
    c == ' ' || c == '\t' || c == '\n' || c == '\r' || c == '\U{B}' || c == '\U{C}'
  }

  predicate AllDigits(s: string) {
    forall k | 0 <= k < |s| :: IsDigit(s[k])
  }

  function DigitValue(c: char): nat
    requires IsDigit(c)
  {
    c as int - '0' as int
  }

  function DigitChar(d: nat): (c: char)
    requires d < 10
    ensures IsDigit(c) && DigitValue(c) == d
  {
    ('0' as int + d) as char
  }

  /** The value of a run of decimal digits, most significant digit first. */
  function DigitsValue(s: string): nat
    requires AllDigits(s)
  {
    if s == [] then 0 else 10 * DigitsValue(s[..|s| - 1]) + DigitValue(s[|s| - 1])
  }

  function Pow10(n: nat): (r: nat)
    ensures r >= 1
  {
    if n == 0 then 1 else 10 * Pow10(n - 1)
  }

  /** Decimal text of a natural number without leading zeros ("0" for zero). */
  function NatToDecimal(n: nat): (s: string)
    ensures |s| >= 1 && AllDigits(s)
    ensures DigitsValue(s) == n
  {
    if n < 10 then [DigitChar(n)]
    else
      var prefix := NatToDecimal(n / 10);
      var s := prefix + [DigitChar(n % 10)];
      assert s[..|s| - 1] == prefix;
      s
  }

  /** `t` occurs in `s` at index `i`. */
  predicate OccursAt(s: string, t: string, i: nat) {
    i + |t| <= |s| && s[i..i + |t|] == t
  }

  /** Python's `t in s` for strings: a case-sensitive substring test. */
  predicate Contains(s: string, t: string) {
    exists i: nat | i <= |s| :: OccursAt(s, t, i)
  }

  /** Python's `s.replace(pat, rep)`: every non-overlapping occurrence, left to right. */
  function ReplaceAll(s: string, pat: string, rep: string): string
    requires |pat| > 0
    decreases |s|
  {
    if |s| < |pat| then s
    else if OccursAt(s, pat, 0) then rep + ReplaceAll(s[|pat|..], pat, rep)
    else [s[0]] + ReplaceAll(s[1..], pat, rep)
  }

  /** A string without the first character of `pat` is left as it is by `ReplaceAll`. */
  lemma {:induction false} ReplaceAllUntouched(s: string, pat: string, rep: string)
    requires |pat| > 0 && pat[0] !in s
    ensures ReplaceAll(s, pat, rep) == s
    decreases |s|
  {
    if |s| >= |pat| {
      assert s[0] != pat[0];
      assert !OccursAt(s, pat, 0) by { assert s[..|pat|][0] == s[0]; }
      ReplaceAllUntouched(s[1..], pat, rep);
      assert [s[0]] + s[1..] == s;
    }
  }

  /** A prefix free of the first character of `pat` passes through `ReplaceAll` unchanged. */
  lemma {:induction false} ReplaceAllSkipsPrefix(a: string, b: string, pat: string, rep: string)
    requires |pat| > 0 && pat[0] !in a
    ensures ReplaceAll(a + b, pat, rep) == a + ReplaceAll(b, pat, rep)
    decreases |a|
  {
    if a != [] {
      var s := a + b;
      assert s[0] == a[0];
      if |s| >= |pat| {
        assert !OccursAt(s, pat, 0) by { assert s[..|pat|][0] == s[0]; }
        assert s[1..] == a[1..] + b;
        ReplaceAllSkipsPrefix(a[1..], b, pat, rep);
        assert [a[0]] + a[1..] == a;
      }
    } else {
      assert a + b == b;
    }
  }

  /** An occurrence of `pat` at the front is replaced and scanning resumes after it. */
  lemma ReplaceAllAtFront(b: string, pat: string, rep: string)
    requires |pat| > 0
    ensures ReplaceAll(pat + b, pat, rep) == rep + ReplaceAll(b, pat, rep)
  {
    var s := pat + b;
    assert OccursAt(s, pat, 0) by { assert s[..|pat|] == pat; }
    assert s[|pat|..] == b;
  }

  /** The only occurrence of `pat`, at the front, is the only thing replaced. */
  lemma ReplaceAllOnlyAtFront(b: string, pat: string, rep: string)
    requires |pat| > 0 && pat[0] !in b
    ensures ReplaceAll(pat + b, pat, rep) == rep + b
  {
    ReplaceAllAtFront(b, pat, rep);
    ReplaceAllUntouched(b, pat, rep);
  }

  /** Case-insensitive comparison of one character: ASCII letters fold to lower case,
      and the dotted and dotless capital/small I (U+0130, U+0131) fold to 'i'. */
  function Fold(c: char): char {
    if 'A' <= c <= 'Z' then (c as int + 32) as char
    else if c == '\U{130}' || c == '\U{131}' then 'i'
    else c
  }

  predicate CiEqual(a: string, b: string) {
    |a| == |b| && forall k | 0 <= k < |a| :: Fold(a[k]) == Fold(b[k])
  }

  /** `pat` occurs case-insensitively in `s` at index `i`. */
  predicate CiOccursAt(s: string, pat: string, i: nat) {
    i + |pat| <= |s| && CiEqual(s[i..i + |pat|], pat)
  }

  /** The first index at or after `j` that does not hold an ASCII whitespace character. */
  function SkipSpaces(s: string, j: nat): (k: nat)
    requires j <= |s|
    ensures j <= k <= |s|
    ensures forall m | j <= m < k :: IsSpace(s[m])
    ensures k == |s| || !IsSpace(s[k])
    decreases |s| - j
  {
    if j < |s| && IsSpace(s[j]) then SkipSpaces(s, j + 1) else j
  }

  /** The end of the run of digits that starts at `j`. */
  function DigitRunEnd(s: string, j: nat): (k: nat)
    requires j <= |s|
    ensures j <= k <= |s|
    ensures forall m | j <= m < k :: IsDigit(s[m])
    ensures k == |s| || !IsDigit(s[k])
    decreases |s| - j
  {
    if j < |s| && IsDigit(s[j]) then DigitRunEnd(s, j + 1) else j
  }
}
