/**
 * The desktop monitor's telemetry line parser (`parse_serial_line`): one text
 * line becomes a (voltage in mV, turbidity in NTU) sample or is rejected.
 *
 * The two regular expressions of the source are modelled by a hand-written
 * scanner: `MatchAt` says whether the pattern matches at one start index and
 * what its groups capture, `Search` finds the leftmost start index, as Python's
 * `re.search` does, and `ScanNumeral` captures `[-+]?\d*\.?\d+`, proved to be
 * the longest prefix in that language (`ScanNumeralLongest`).
 */
module LineParser {
  import opened Wrappers
  import opened Text

  /** The firmware's localized keywords and the canonical tokens they become. */
  const VON: string := "V\U{F4}n"
  const DO_DUC: string := "\U{110}\U{1ED9} \U{111}\U{1EE5}c"
  const VOLTAGE: string := "VOLTAGE"
  const TURBIDITY: string := "TURBIDITY"

  datatype Sample = Sample(voltageMv: real, turbidity: real)

  /** The three `ValueError`s of the source. */
  datatype Reject = MissingTokens | NoTurbidity | NoVoltage

  datatype Sign = NoSign | Plus | Minus

  /** A numeral as captured by `[-+]?\d*\.?\d+`: its sign, the digits before the
      point and the digits after it (empty when there is no point). */
  datatype Numeral = Numeral(sign: Sign, whole: string, frac: string)

  /** The voltage unit group `(mV|v)`. */
  datatype Unit = MilliVolt | Volt

  /** What one match of a pattern captures: the number group and, for the voltage
      pattern, the unit group. */
  datatype Capture = Capture(num: Numeral, unit: Option<Unit>)

  datatype Pattern = TurbidityPattern | VoltagePattern

  predicate IsSign(c: char) { c == '+' || c == '-' }

  predicate IsSeparator(c: char) { c == ':' || c == '=' }

  predicate WellFormed(n: Numeral) {
    AllDigits(n.whole) && AllDigits(n.frac) && (n.whole != [] || n.frac != [])
  }

  function SignText(g: Sign): string {
    match g
    case NoSign => ""
    case Plus => "+"
    case Minus => "-"
  }

  function NumeralText(n: Numeral): string {
    SignText(n.sign) + UnsignedText(n.whole, n.frac)
  }

  /** The exact decimal value of a numeral, what `float()` approximates. */
  function NumeralValue(n: Numeral): real
    requires WellFormed(n)
  {
    var magnitude := DigitsValue(n.whole) as real + DigitsValue(n.frac) as real / Pow10(|n.frac|) as real;
    if n.sign == Minus then -magnitude else magnitude
  }

  // ---------------------------------------------------------------------------
  // The language of `[-+]?\d*\.?\d+`, stated independently of the scanner.

  /** `u` is all digits but for one point at `p`, which is not its last character. */
  predicate PointAt(u: string, p: nat) {
    p + 1 < |u| && u[p] == '.' && forall k | 0 <= k < |u| && k != p :: IsDigit(u[k])
  }

  /** The language of `\d*\.?\d+`. */
  predicate IsUnsignedNumeral(u: string) {
    (|u| > 0 && AllDigits(u)) || exists p: nat | p < |u| :: PointAt(u, p)
  }

  /** The language of `[-+]?\d*\.?\d+`. */
  predicate IsNumeral(t: string) {
    if |t| > 0 && IsSign(t[0]) then IsUnsignedNumeral(t[1..]) else IsUnsignedNumeral(t)
  }

  /** The part of `t` after its sign, if it has one. */
  function Unsigned(t: string): (u: string)
    ensures IsNumeral(t) == IsUnsignedNumeral(u)
    ensures |u| <= |t| && u == t[|t| - |u|..]
    ensures |t| - |u| <= 1 && (|t| - |u| == 1 <==> |t| > 0 && IsSign(t[0]))
  {
    if |t| > 0 && IsSign(t[0]) then t[1..] else t
  }

  /** A character other than a digit or a point, past the optional sign, rules a string out. */
  lemma NotNumeralBadChar(t: string, k: nat)
    requires k < |t| && !IsDigit(t[k]) && t[k] != '.'
    requires k > 0 || !IsSign(t[k])
    ensures !IsNumeral(t)
  {
    var u := Unsigned(t);
    var m := k - (|t| - |u|);
    assert u[m] == t[k];
    assert !AllDigits(u);
    forall p: nat | p < |u| ensures !PointAt(u, p) {
    }
  }

  /** Two points rule out an unsigned numeral. */
  lemma UnsignedTwoPoints(u: string, a: nat, b: nat)
    requires a < b < |u| && u[a] == '.' && u[b] == '.'
    ensures !IsUnsignedNumeral(u)
  {
    assert !IsDigit(u[a]);
    forall p: nat | p < |u| ensures !PointAt(u, p) {
      if p != a {
        assert !IsDigit(u[a]);
      } else {
        assert !IsDigit(u[b]);
      }
    }
  }

  /** A numeral holds at most one point. */
  lemma NotNumeralTwoPoints(t: string, k1: nat, k2: nat)
    requires k1 < k2 < |t| && t[k1] == '.' && t[k2] == '.'
    ensures !IsNumeral(t)
  {
    if |t| > 0 && IsSign(t[0]) {
      assert t[1..][k1 - 1] == t[k1] && t[1..][k2 - 1] == t[k2];
      UnsignedTwoPoints(t[1..], k1 - 1, k2 - 1);
    } else {
      UnsignedTwoPoints(t, k1, k2);
    }
  }

  /** A numeral never ends with its point. */
  lemma NotNumeralTrailingPoint(t: string)
    requires |t| > 0 && t[|t| - 1] == '.'
    ensures !IsNumeral(t)
  {
    var u := Unsigned(t);
    var o := |t| - |u|;
    if |u| > 0 {
      var l := |u| - 1;
      assert l + o == |t| - 1;
      assert u[l] == t[l + o];
      assert !AllDigits(u) by { assert !IsDigit(u[l]); }
      forall p: nat | p < |u| ensures !PointAt(u, p) {
        if p + 1 < |u| {
          assert !IsDigit(u[l]);
        }
      }
    }
  }

  function UnsignedText(whole: string, frac: string): string {
    whole + (if frac == [] then "" else "." + frac)
  }

  lemma UnsignedTextIsUnsignedNumeral(whole: string, frac: string)
    requires AllDigits(whole) && AllDigits(frac) && (whole != [] || frac != [])
    ensures IsUnsignedNumeral(UnsignedText(whole, frac))
    ensures IsDigit(UnsignedText(whole, frac)[0]) || UnsignedText(whole, frac)[0] == '.'
  {
    var u := UnsignedText(whole, frac);
    if frac == [] {
      assert u == whole;
    } else {
      var p := |whole|;
      assert u == whole + ['.'] + frac;
      forall k | 0 <= k < |u| && k != p ensures IsDigit(u[k]) {
        if k < p { assert u[k] == whole[k]; } else { assert u[k] == frac[k - p - 1]; }
      }
      assert PointAt(u, p);
    }
  }

  lemma NumeralTextIsNumeral(n: Numeral)
    requires WellFormed(n)
    ensures IsNumeral(NumeralText(n))
  {
    var u := UnsignedText(n.whole, n.frac);
    UnsignedTextIsUnsignedNumeral(n.whole, n.frac);
    var t := NumeralText(n);
    assert t == SignText(n.sign) + u;
    if n.sign != NoSign {
      assert t[1..] == u;
    } else {
      assert t == u;
    }
  }

  /** A numeral cannot continue past a character that is not a digit unless that
      character is its only point and a digit follows. `kd`, when not negative, is the
      index of an earlier point. */
  lemma NumeralStopsAt(t: string, c: nat, kd: int)
    requires c < |t| && !IsDigit(t[c]) && (c > 0 || !IsSign(t[c]))
    requires kd >= 0 ==> kd < c && t[kd] == '.'
    requires t[c] == '.' ==> kd >= 0 || c + 1 == |t| || !IsDigit(t[c + 1])
    ensures !IsNumeral(t)
  {
    if t[c] != '.' {
      NotNumeralBadChar(t, c);
    } else if kd >= 0 {
      NotNumeralTwoPoints(t, kd, c);
    } else if c + 1 == |t| {
      NotNumeralTrailingPoint(t);
    } else if t[c + 1] == '.' {
      NotNumeralTwoPoints(t, c, c + 1);
    } else {
      NotNumeralBadChar(t, c + 1);
    }
  }

  // ---------------------------------------------------------------------------
  // The scanner.

  lemma SliceSplit(s: string, a: nat, b: nat, c: nat)
    requires a <= b <= c <= |s|
    ensures s[a..c] == s[a..b] + s[b..c]
  {
  }

  /** A numeral captured at index `i`, and the index just after it. */
  datatype Token = Token(num: Numeral, end: nat)

  /** The text of a numeral with a point, scanned from `i`: sign up to `j`, whole digits
      up to the point at `k`, fraction digits up to `e`. */
  lemma FractionTokenText(s: string, i: nat, j: nat, k: nat, e: nat, sign: Sign)
    requires i <= j <= k && k + 1 < e <= |s| && SignText(sign) == s[i..j] && s[k] == '.'
    requires forall m | j <= m < k :: IsDigit(s[m])
    requires forall m | k + 1 <= m < e :: IsDigit(s[m])
    ensures WellFormed(Numeral(sign, s[j..k], s[k + 1..e]))
    ensures s[i..e] == NumeralText(Numeral(sign, s[j..k], s[k + 1..e]))
  {
    assert s[k..k + 1] == ".";
    SliceSplit(s, i, j, e);
    SliceSplit(s, j, k, e);
    SliceSplit(s, k, k + 1, e);
  }

  /** The text of a numeral without a point: sign up to `j`, digits up to `k`. */
  lemma WholeTokenText(s: string, i: nat, j: nat, k: nat, sign: Sign)
    requires i <= j < k <= |s| && SignText(sign) == s[i..j]
    requires forall m | j <= m < k :: IsDigit(s[m])
    ensures WellFormed(Numeral(sign, s[j..k], ""))
    ensures s[i..k] == NumeralText(Numeral(sign, s[j..k], ""))
  {
    SliceSplit(s, i, j, k);
  }

  /** The sign at index `i`, if there is one. */
  function SignAt(s: string, i: nat): (g: Sign)
    requires i <= |s|
    ensures g != NoSign ==> i < |s| && SignText(g) == s[i..i + 1]
    ensures g == NoSign ==> i == |s| || !IsSign(s[i])
  {
    if i < |s| && s[i] == '+' then Plus else if i < |s| && s[i] == '-' then Minus else NoSign
  }

  /** `[-+]?\d*\.?\d+` matched greedily at index `i`, as the regex engine matches it. */
  function ScanNumeral(s: string, i: nat): (r: Option<Token>)
    requires i <= |s|
    ensures r.Some? ==> i < r.value.end <= |s| && WellFormed(r.value.num)
    ensures r.Some? ==> s[i..r.value.end] == NumeralText(r.value.num)
  {
    var sign := SignAt(s, i);
    var j := if sign == NoSign then i else i + 1;
    var k := DigitRunEnd(s, j);
    if k + 1 < |s| && s[k] == '.' && IsDigit(s[k + 1]) then
      var e := DigitRunEnd(s, k + 1);
      FractionTokenText(s, i, j, k, e, sign);
      Some(Token(Numeral(sign, s[j..k], s[k + 1..e]), e))
    else if j < k then
      WholeTokenText(s, i, j, k, sign);
      Some(Token(Numeral(sign, s[j..k], ""), k))
    else None
  }

  /** A numeral from `i` cannot run past a digit run ending at `k` that no fraction follows. */
  lemma StopsAfterWhole(s: string, i: nat, k: nat, e: nat)
    requires i < k < e <= |s| && !IsDigit(s[k])
    requires s[k] == '.' ==> k + 1 == |s| || !IsDigit(s[k + 1])
    ensures !IsNumeral(s[i..e])
  {
    var t := s[i..e];
    var c := k - i;
    assert t[c] == s[k];
    if c + 1 < |t| { assert t[c + 1] == s[k + 1]; }
    NumeralStopsAt(t, c, -1);
  }

  /** A numeral from `i` cannot run past the end of the digits after its point at `kd`. */
  lemma StopsAfterFraction(s: string, i: nat, kd: nat, k: nat, e: nat)
    requires i <= kd < k < e <= |s| && s[kd] == '.' && !IsDigit(s[k])
    ensures !IsNumeral(s[i..e])
  {
    var t := s[i..e];
    assert t[k - i] == s[k] && t[kd - i] == s[kd];
    NumeralStopsAt(t, k - i, kd - i);
  }

  /** No longer prefix than the scanner's is a numeral. */
  lemma ScanStopsAt(s: string, i: nat, e: nat)
    requires i <= |s| && ScanNumeral(s, i).Some? && ScanNumeral(s, i).value.end < e <= |s|
    ensures !IsNumeral(s[i..e])
  {
    var sign := SignAt(s, i);
    var j := if sign == NoSign then i else i + 1;
    var k := DigitRunEnd(s, j);
    if k + 1 < |s| && s[k] == '.' && IsDigit(s[k + 1]) {
      var end := DigitRunEnd(s, k + 1);
      assert ScanNumeral(s, i).value.end == end;
      StopsAfterFraction(s, i, k, end, e);
    } else {
      assert ScanNumeral(s, i).value.end == k;
      StopsAfterWhole(s, i, k, e);
    }
  }

  /** The scanner captures the longest prefix of `s[i..]` in the numeral language... */
  lemma ScanNumeralLongest(s: string, i: nat)
    requires i <= |s| && ScanNumeral(s, i).Some?
    ensures IsNumeral(s[i..ScanNumeral(s, i).value.end])
    ensures forall e | ScanNumeral(s, i).value.end < e <= |s| :: !IsNumeral(s[i..e])
  {
    NumeralTextIsNumeral(ScanNumeral(s, i).value.num);
    forall e | ScanNumeral(s, i).value.end < e <= |s| ensures !IsNumeral(s[i..e]) {
      ScanStopsAt(s, i, e);
    }
  }

  /** ...and finds nothing exactly when no non-empty prefix is in it. */
  lemma ScanNumeralNone(s: string, i: nat)
    requires i <= |s| && ScanNumeral(s, i).None?
    ensures forall e | i <= e <= |s| :: !IsNumeral(s[i..e])
  {
    var sign := SignAt(s, i);
    var j := if sign == NoSign then i else i + 1;
    forall e | i <= e <= |s| ensures !IsNumeral(s[i..e]) {
      var t := s[i..e];
      var o := j - i;
      if e <= j {
        if |t| == 1 { assert t[1..] == []; }
      } else {
        assert t[o] == s[j];
        if o + 1 < |t| { assert t[o + 1] == s[j + 1]; }
        NumeralStopsAt(t, o, -1);
      }
    }
  }

  // ---------------------------------------------------------------------------
  // The two patterns, one start index at a time.

  /** `TURBIDITY\s*[:=]\s*([-+]?\d*\.?\d+)`, case-insensitive, tried at index `p`. */
  function MatchTurbidityAt(s: string, p: nat): Option<Capture>
    requires p <= |s|
  {
    if !CiOccursAt(s, TURBIDITY, p) then None
    else
      var a := SkipSpaces(s, p + |TURBIDITY|);
      if a == |s| || !IsSeparator(s[a]) then None
      else match ScanNumeral(s, SkipSpaces(s, a + 1))
        case None => None
        case Some(tok) => Some(Capture(tok.num, None))
  }

  /** The optional `(mV|v)` group at index `j` (after `\s*`): `mV` is tried first. */
  function UnitAt(s: string, j: nat): Option<Unit>
    requires j <= |s|
  {
    if CiOccursAt(s, "mV", j) then Some(MilliVolt)
    else if CiOccursAt(s, "v", j) then Some(Volt)
    else None
  }

  /** `VOLT(?:AGE)?\s*[:=]\s*([-+]?\d*\.?\d+)\s*(mV|v)?`, case-insensitive, tried at
      index `p`. When `AGE` follows `VOLT` the engine must take it: without it the
      next character is a letter, which neither `\s` nor `[:=]` matches. */
  function MatchVoltageAt(s: string, p: nat): Option<Capture>
    requires p <= |s|
  {
    if !CiOccursAt(s, "VOLT", p) then None
    else
      var q := if CiOccursAt(s, "AGE", p + 4) then p + 7 else p + 4;
      var a := SkipSpaces(s, q);
      if a == |s| || !IsSeparator(s[a]) then None
      else match ScanNumeral(s, SkipSpaces(s, a + 1))
        case None => None
        case Some(tok) => Some(Capture(tok.num, UnitAt(s, SkipSpaces(s, tok.end))))
  }

  function MatchAt(pat: Pattern, s: string, p: nat): Option<Capture>
    requires p <= |s|
  {
    match pat
    case TurbidityPattern => MatchTurbidityAt(s, p)
    case VoltagePattern => MatchVoltageAt(s, p)
  }

  /** `p` is the leftmost index at which `pat` matches, and it captures `c`. */
  predicate IsLeftmost(pat: Pattern, s: string, p: nat, c: Capture) {
    p <= |s| && MatchAt(pat, s, p) == Some(c) &&
    forall q: nat | q < p :: MatchAt(pat, s, q).None?
  }

  /** `re.search`: the first start index at or after `p` where `pat` matches. */
  function Search(pat: Pattern, s: string, p: nat): (r: Option<(nat, Capture)>)
    requires p <= |s|
    ensures r.Some? ==> p <= r.value.0 <= |s| && MatchAt(pat, s, r.value.0) == Some(r.value.1)
    ensures r.Some? ==> forall q | p <= q < r.value.0 :: MatchAt(pat, s, q).None?
    ensures r.None? ==> forall q | p <= q <= |s| :: MatchAt(pat, s, q).None?
  {
    FirstMatch(Matches(pat, s), p)
  }

  /** The outcome of trying `pat` at every index of `s`, the end included. */
  function Matches(pat: Pattern, s: string): (ms: seq<Option<Capture>>)
    ensures |ms| == |s| + 1
    ensures forall q | 0 <= q <= |s| :: ms[q] == MatchAt(pat, s, q)
  {
    seq(|s| + 1, q requires 0 <= q <= |s| => MatchAt(pat, s, q))
  }

  /** The first index at or after `p` whose attempt matched. */
  function FirstMatch(ms: seq<Option<Capture>>, p: nat): (r: Option<(nat, Capture)>)
    requires p < |ms|
    ensures r.Some? ==> p <= r.value.0 < |ms| && ms[r.value.0] == Some(r.value.1)
    ensures r.Some? ==> forall q | p <= q < r.value.0 :: ms[q].None?
    ensures r.None? ==> forall q | p <= q < |ms| :: ms[q].None?
    decreases |ms| - p
  {
    if ms[p].Some? then Some((p, ms[p].value))
    else if p == |ms| - 1 then None
    else FirstMatch(ms, p + 1)
  }

  lemma LeftmostIsUnique(pat: Pattern, s: string, p1: nat, c1: Capture, p2: nat, c2: Capture)
    requires IsLeftmost(pat, s, p1, c1) && IsLeftmost(pat, s, p2, c2)
    ensures p1 == p2 && c1 == c2
  {
  }

  lemma SearchFindsLeftmost(pat: Pattern, s: string, p: nat, c: Capture)
    requires IsLeftmost(pat, s, p, c)
    ensures Search(pat, s, 0) == Some((p, c))
  {
    match Search(pat, s, 0)
    case None =>
    case Some((q, d)) =>
      assert IsLeftmost(pat, s, q, d);
      LeftmostIsUnique(pat, s, p, c, q, d);
  }

  // ---------------------------------------------------------------------------
  // The parser.

  /** The keyword substitution done first: "Vôn" becomes VOLTAGE, then "Độ đục" TURBIDITY. */
  function NormalizeKeywords(line: string): string {
    ReplaceAll(ReplaceAll(line, VON, VOLTAGE), DO_DUC, TURBIDITY)
  }

  /** The case-sensitive presence test for both full canonical words. */
  predicate HasBothTokens(n: string) {
    Contains(n, VOLTAGE) && Contains(n, TURBIDITY)
  }

  function Abs(x: real): real { if x < 0.0 then -x else x }

  /** Unit normalisation: an explicit `v` means volts, and so does a bare number whose
      magnitude is below 100; `mV` or a bare number of at least 100 is kept as millivolts. */
  function ToMillivolts(x: real, unit: Option<Unit>): real {
    if unit == Some(Volt) then x * 1000.0
    else if unit.None? && Abs(x) < 100.0 then x * 1000.0
    else x
  }

  /** The parse proper, on a line whose keywords are already normalized: both words
      must be present, then the leftmost turbidity and the leftmost voltage match are
      taken, in that order. */
  function ParseNormalized(n: string): (r: Result<Sample, Reject>)
    ensures r == Err(MissingTokens) <==> !HasBothTokens(n)
  {
    if !HasBothTokens(n) then Err(MissingTokens)
    else match Search(TurbidityPattern, n, 0)
      case None => Err(NoTurbidity)
      case Some((_, t)) =>
        match Search(VoltagePattern, n, 0)
        case None => Err(NoVoltage)
        case Some((_, v)) =>
          assert WellFormed(t.num) && WellFormed(v.num) by {
            assert MatchAt(TurbidityPattern, n, Search(TurbidityPattern, n, 0).value.0) == Some(t);
            assert MatchAt(VoltagePattern, n, Search(VoltagePattern, n, 0).value.0) == Some(v);
          }
          Ok(Sample(ToMillivolts(NumeralValue(v.num), v.unit), NumeralValue(t.num)))
  }

  /** `parse_serial_line`: `None` of the source is an `Err` naming why the line was refused. */
  function ParseSerialLine(line: string): Result<Sample, Reject> {
    ParseNormalized(NormalizeKeywords(line))
  }

  /** Every match captures a well-formed numeral. */
  lemma MatchIsWellFormed(pat: Pattern, s: string, p: nat)
    requires p <= |s| && MatchAt(pat, s, p).Some?
    ensures WellFormed(MatchAt(pat, s, p).value.num)
  {
  }

  /** An accepted line: the turbidity is the number of the leftmost turbidity match and
      the voltage that of the leftmost voltage match, converted from volts when the unit
      is `v` or when there is no unit and the magnitude is below 100. */
  lemma ParseNormalizedAccepts(n: string, pt: nat, ct: Capture, pv: nat, cv: Capture)
    requires HasBothTokens(n)
    requires IsLeftmost(TurbidityPattern, n, pt, ct)
    requires IsLeftmost(VoltagePattern, n, pv, cv)
    ensures WellFormed(ct.num) && WellFormed(cv.num)
    ensures ParseNormalized(n) == Ok(Sample(ToMillivolts(NumeralValue(cv.num), cv.unit), NumeralValue(ct.num)))
  {
    SearchFindsLeftmost(TurbidityPattern, n, pt, ct);
    SearchFindsLeftmost(VoltagePattern, n, pv, cv);
    MatchIsWellFormed(TurbidityPattern, n, pt);
    MatchIsWellFormed(VoltagePattern, n, pv);
  }

  /** A line is rejected exactly when a token is missing or a pattern matches nowhere. */
  lemma ParseNormalizedRejects(n: string)
    ensures ParseNormalized(n).Err? <==>
        || !HasBothTokens(n)
        || (forall q | 0 <= q <= |n| :: MatchAt(TurbidityPattern, n, q).None?)
        || (forall q | 0 <= q <= |n| :: MatchAt(VoltagePattern, n, q).None?)
  {
    var st, sv := Search(TurbidityPattern, n, 0), Search(VoltagePattern, n, 0);
    if st.Some? {
      assert MatchAt(TurbidityPattern, n, st.value.0).Some?;
    }
    if sv.Some? {
      assert MatchAt(VoltagePattern, n, sv.value.0).Some?;
    }
  }

  /** After the keyword substitution, a line without both words is refused for that reason. */
  lemma ParseSerialLineNeedsTokens(line: string)
    ensures !HasBothTokens(NormalizeKeywords(line)) <==> ParseSerialLine(line) == Err(MissingTokens)
  {
  }

  /** The unit rule: `v` in either case multiplies by 1000 and `mV` in any case keeps the
      value; without a unit a magnitude below 100 is read as volts, any other as millivolts. */
  lemma UnitRule(x: real, unit: Option<Unit>)
    ensures unit == Some(Volt) ==> ToMillivolts(x, unit) == 1000.0 * x
    ensures unit == Some(MilliVolt) ==> ToMillivolts(x, unit) == x
    ensures unit.None? && -100.0 < x < 100.0 ==> ToMillivolts(x, unit) == 1000.0 * x
    ensures unit.None? && (x <= -100.0 || x >= 100.0) ==> ToMillivolts(x, unit) == x
  {
  }
}
