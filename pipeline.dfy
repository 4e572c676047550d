/**
 * The two ends of the serial link together: every line the firmware prints is
 * accepted by the GUI's parser, which recovers the printed millivolts and the
 * printed NTU value.
 */
module Pipeline {
  import opened Wrappers
  import opened Text
  import opened LineParser
  import Firmware

  /** What the parser works on once the Vietnamese keywords are replaced. */
  function Normalized(d: string, f: string): string {
    VOLTAGE + ":" + d + "," + TURBIDITY + ":" + f
  }

  lemma DigitsLackLetter(c: char, s: string)
    requires AllDigits(s) && !IsDigit(c)
    ensures c !in s
  {
  }

  lemma FixedTwoShape(h: nat)
    ensures var f := Firmware.FixedTwo(h); var w := NatToDecimal(h / 100);
      && f == w + "." + f[|w| + 1..]
      && |f| == |w| + 3
      && AllDigits(f[|w| + 1..])
      && IsDigit(f[0])
      && '.' in f && (forall c | c in f :: IsDigit(c) || c == '.')
  {
    var w := NatToDecimal(h / 100);
    var dd := [DigitChar(h % 100 / 10), DigitChar(h % 10)];
    var f := Firmware.FixedTwo(h);
    assert f == w + "." + dd;
    assert f[|w| + 1..] == dd;
    assert f[|w|] == '.';
  }

  /** Characters of printed numbers: digits and the decimal point. */
  predicate NumberChars(s: string) {
    forall c | c in s :: IsDigit(c) || c == '.'
  }

  lemma FirstReplacement(d: string, f: string)
    requires NumberChars(d) && NumberChars(f)
    ensures ReplaceAll(VON + ":" + d + "," + DO_DUC + ":" + f, VON, VOLTAGE)
         == VOLTAGE + ":" + d + "," + DO_DUC + ":" + f
  {
    var rest := ":" + d + "," + DO_DUC + ":" + f;
    assert VON[0] == 'V';
    assert 'V' !in d && 'V' !in f by { assert !IsDigit('V'); }
    assert 'V' !in DO_DUC by { assert forall k | 0 <= k < |DO_DUC| :: DO_DUC[k] != 'V'; }
    assert VON[0] !in rest;
    ReplaceAllOnlyAtFront(rest, VON, VOLTAGE);
    Regroup(VON, ":", d, ",", DO_DUC, ":", f);
    Regroup(VOLTAGE, ":", d, ",", DO_DUC, ":", f);
  }

  lemma Regroup3(a: string, x: string, y: string, z: string)
    ensures a + x + y + z == a + (x + (y + z))
  {
  }

  /** A left-nested concatenation is its head followed by the concatenation of the rest. */
  lemma Regroup(x: string, a: string, b: string, c: string, e: string, g: string, h: string)
    ensures x + a + b + c + e + g + h == x + (a + b + c + e + g + h)
  {
  }

  lemma SecondReplacement(d: string, f: string)
    requires NumberChars(d) && NumberChars(f)
    ensures ReplaceAll(VOLTAGE + ":" + d + "," + DO_DUC + ":" + f, DO_DUC, TURBIDITY) == Normalized(d, f)
  {
    var a, b := VOLTAGE + ":" + d + ",", ":" + f;
    assert DO_DUC[0] !in a && DO_DUC[0] !in b by {
      assert DO_DUC[0] == '\U{110}';
      assert DO_DUC[0] !in d && DO_DUC[0] !in f;
    }
    ReplaceAllSkipsPrefix(a, DO_DUC + b, DO_DUC, TURBIDITY);
    ReplaceAllOnlyAtFront(b, DO_DUC, TURBIDITY);
    Regroup3(a, DO_DUC, ":", f);
    Regroup3(a, TURBIDITY, ":", f);
  }

  lemma TelemetryNormalizes(mv: nat, h: nat)
    ensures NormalizeKeywords(Firmware.TelemetryText(mv, h)) == Normalized(NatToDecimal(mv), Firmware.FixedTwo(h))
  {
    var d, f := NatToDecimal(mv), Firmware.FixedTwo(h);
    FixedTwoShape(h);
    assert NumberChars(d) by {
      forall c | c in d ensures IsDigit(c) {
        var k :| 0 <= k < |d| && d[k] == c;
      }
    }
    assert Firmware.TelemetryText(mv, h) == VON + ":" + d + "," + DO_DUC + ":" + f;
    FirstReplacement(d, f);
    SecondReplacement(d, f);
  }

  /** The digit run starting at `j` ends where the digits do. */
  lemma DigitRunIs(s: string, j: nat, k: nat)
    requires j <= k <= |s|
    requires forall m | j <= m < k :: IsDigit(s[m])
    requires k == |s| || !IsDigit(s[k])
    ensures DigitRunEnd(s, j) == k
  {
  }

  /** A run of digits at `i` that is followed by a character other than a point or a
      digit scans as a whole number. */
  lemma ScanWhole(s: string, i: nat, k: nat)
    requires i < k < |s| && !IsDigit(s[k]) && s[k] != '.'
    requires forall m | i <= m < k :: IsDigit(s[m])
    ensures ScanNumeral(s, i) == Some(Token(Numeral(NoSign, s[i..k], ""), k))
  {
    DigitRunIs(s, i, k);
  }

  /** Digits, a point and digits to the end of `s` scan as a decimal numeral. */
  lemma ScanDecimal(s: string, i: nat, k: nat)
    requires i < k && k + 1 < |s| && s[k] == '.'
    requires forall m | i <= m < k :: IsDigit(s[m])
    requires forall m | k < m < |s| :: IsDigit(s[m])
    ensures ScanNumeral(s, i) == Some(Token(Numeral(NoSign, s[i..k], s[k + 1..]), |s|))
  {
    assert IsDigit(s[i]) && IsDigit(s[k + 1]);
    DigitRunIs(s, i, k);
    DigitRunIs(s, k + 1, |s|);
    assert s[k + 1..|s|] == s[k + 1..];
  }

  lemma VoltageMatchFromLayout(n: string, e: nat)
    requires 8 < e < |n|
    requires n[..8] == VOLTAGE + ":" && n[e] == ','
    requires forall m | 8 <= m < e :: IsDigit(n[m])
    ensures MatchVoltageAt(n, 0) == Some(Capture(Numeral(NoSign, n[8..e], ""), None))
  {
    assert n[..4] == "VOLT" && n[4..7] == "AGE" by {
      assert n[..4] == n[..8][..4];
      assert n[4..7] == n[..8][4..7];
    }
    assert CiOccursAt(n, "VOLT", 0) && CiOccursAt(n, "AGE", 4);
    assert n[7] == n[..8][7];
    assert SkipSpaces(n, 7) == 7 && SkipSpaces(n, 8) == 8 && SkipSpaces(n, e) == e;
    ScanWhole(n, 8, e);
    assert !CiOccursAt(n, "mV", e) by {
      if e + 2 <= |n| {
        assert n[e..e + 2][0] == ',';
      }
    }
    assert !CiOccursAt(n, "v", e) by {
      assert n[e..e + 1][0] == ',';
    }
  }

  lemma VoltageMatchesFirst(d: string, f: string)
    requires |d| > 0 && AllDigits(d)
    ensures IsLeftmost(VoltagePattern, Normalized(d, f), 0, Capture(Numeral(NoSign, d, ""), None))
  {
    var n := Normalized(d, f);
    var e := 8 + |d|;
    var x := VOLTAGE + ":";
    assert n == x + d + ("," + TURBIDITY + ":" + f);
    assert n[..8] == x;
    assert n[e] == ',';
    forall m | 8 <= m < e
      ensures IsDigit(n[m])
    {
      assert n[m] == d[m - 8];
    }
    assert n[8..e] == d;
    VoltageMatchFromLayout(n, e);
  }

  lemma NoTurbidityBefore(d: string, f: string)
    requires AllDigits(d)
    ensures forall q: nat | q < 9 + |d| :: MatchAt(TurbidityPattern, Normalized(d, f), q).None?
  {
    var n := Normalized(d, f);
    forall q: nat | q < 9 + |d|
      ensures MatchTurbidityAt(n, q).None?
    {
      if q + 9 <= |n| {
        var w := n[q..q + 9];
        assert w[0] == n[q] && w[1] == n[q + 1];
        if q < 7 {
          assert n[q] == VOLTAGE[q] && n[q + 1] == (VOLTAGE + ":")[q + 1];
          assert Fold(w[0]) != 't' || Fold(w[1]) != 'u';
        } else if q == 7 {
          assert n[q] == ':';
        } else if q < 8 + |d| {
          assert n[q] == d[q - 8];
        } else {
          assert n[q] == ',';
        }
        assert !CiEqual(w, TURBIDITY);
      }
    }
  }

  lemma TurbidityMatchFromLayout(n: string, p: nat, k: nat)
    requires p + 10 < k && k + 1 < |n|
    requires n[p..p + 10] == TURBIDITY + ":" && n[k] == '.'
    requires forall m | p + 10 <= m < k :: IsDigit(n[m])
    requires forall m | k < m < |n| :: IsDigit(n[m])
    ensures MatchTurbidityAt(n, p) == Some(Capture(Numeral(NoSign, n[p + 10..k], n[k + 1..]), None))
  {
    assert n[p..p + 9] == n[p..p + 10][..9];
    assert CiOccursAt(n, TURBIDITY, p);
    assert n[p + 9] == n[p..p + 10][9];
    assert SkipSpaces(n, p + 9) == p + 9 && SkipSpaces(n, p + 10) == p + 10;
    ScanDecimal(n, p + 10, k);
  }

  lemma TurbidityMatchesAfterVoltage(d: string, w: string, dd: string)
    requires |d| > 0 && AllDigits(d) && |w| > 0 && AllDigits(w) && |dd| > 0 && AllDigits(dd)
    ensures MatchAt(TurbidityPattern, Normalized(d, w + "." + dd), 9 + |d|) == Some(Capture(Numeral(NoSign, w, dd), None))
  {
    var n := Normalized(d, w + "." + dd);
    var x := VOLTAGE + ":" + d + ",";
    var y := TURBIDITY + ":";
    var p := |x|;
    assert n == x + y + w + "." + dd;
    assert n[p..p + 10] == y;
    var i, k := p + 10, p + 10 + |w|;
    forall m | i <= m < k
      ensures IsDigit(n[m])
    {
      assert n[m] == w[m - i];
    }
    assert n[k] == '.';
    forall m | k < m < |n|
      ensures IsDigit(n[m])
    {
      assert n[m] == dd[m - k - 1];
    }
    assert n[i..k] == w && n[k + 1..] == dd;
    TurbidityMatchFromLayout(n, p, k);
  }

  lemma TwoDigitsValue(h: nat)
    ensures var dd := [DigitChar(h % 100 / 10), DigitChar(h % 10)];
      AllDigits(dd) && DigitsValue(dd) == h % 100
  {
    var dd := [DigitChar(h % 100 / 10), DigitChar(h % 10)];
    assert dd[..1] == [dd[0]] && [dd[0]][..0] == [];
    assert DigitsValue(dd[..1]) == h % 100 / 10;
    assert DigitsValue(dd) == 10 * (h % 100 / 10) + h % 10;
    var r := h % 100;
    assert h == 100 * (h / 100) + r;
    assert r == 10 * (r / 10) + r % 10;
    assert h == 10 * (10 * (h / 100) + r / 10) + r % 10;
    assert h % 10 == r % 10;
  }

  lemma NormalizedHasTokens(d: string, f: string)
    ensures HasBothTokens(Normalized(d, f))
  {
    var n := Normalized(d, f);
    assert OccursAt(n, VOLTAGE, 0);
    assert OccursAt(n, TURBIDITY, 9 + |d|) by {
      assert n == VOLTAGE + ":" + d + "," + (TURBIDITY + ":" + f);
    }
  }

  /** Where the two patterns first match in a normalized line of the firmware's shape. */
  lemma NormalizedMatches(d: string, w: string, dd: string)
    requires |d| > 0 && AllDigits(d) && |w| > 0 && AllDigits(w) && |dd| > 0 && AllDigits(dd)
    ensures var n := Normalized(d, w + "." + dd);
      && HasBothTokens(n)
      && IsLeftmost(VoltagePattern, n, 0, Capture(Numeral(NoSign, d, ""), None))
      && IsLeftmost(TurbidityPattern, n, 9 + |d|, Capture(Numeral(NoSign, w, dd), None))
  {
    var f := w + "." + dd;
    NormalizedHasTokens(d, f);
    VoltageMatchesFirst(d, f);
    NoTurbidityBefore(d, f);
    TurbidityMatchesAfterVoltage(d, w, dd);
  }

  /** A normalized line of the firmware's shape parses to its two numbers. */
  lemma NormalizedAccepted(d: string, w: string, dd: string)
    requires |d| > 0 && AllDigits(d) && |w| > 0 && AllDigits(w) && |dd| > 0 && AllDigits(dd)
    ensures var v, t := Numeral(NoSign, d, ""), Numeral(NoSign, w, dd);
      && WellFormed(v) && WellFormed(t)
      && ParseNormalized(Normalized(d, w + "." + dd)) == Ok(Sample(ToMillivolts(NumeralValue(v), None), NumeralValue(t)))
  {
    var cv, ct := Capture(Numeral(NoSign, d, ""), None), Capture(Numeral(NoSign, w, dd), None);
    NormalizedMatches(d, w, dd);
    ParseNormalizedAccepts(Normalized(d, w + "." + dd), 9 + |d|, ct, 0, cv);
  }

  lemma LineParsesTo(line: string, d: string, w: string, dd: string, x: real, y: real)
    requires |d| > 0 && AllDigits(d) && |w| > 0 && AllDigits(w) && |dd| > 0 && AllDigits(dd)
    requires NormalizeKeywords(line) == Normalized(d, w + "." + dd)
    requires NumeralValue(Numeral(NoSign, d, "")) == x && NumeralValue(Numeral(NoSign, w, dd)) == y
    ensures ParseSerialLine(line) == Ok(Sample(ToMillivolts(x, None), y))
  {
    NormalizedAccepted(d, w, dd);
  }

  lemma PrintedValues(mv: nat, h: nat)
    ensures var d, w := NatToDecimal(mv), NatToDecimal(h / 100);
      var dd := [DigitChar(h % 100 / 10), DigitChar(h % 10)];
      && AllDigits(dd)
      && NumeralValue(Numeral(NoSign, d, "")) == mv as real
      && NumeralValue(Numeral(NoSign, w, dd)) == h as real / 100.0
  {
    var w := NatToDecimal(h / 100);
    var dd := [DigitChar(h % 100 / 10), DigitChar(h % 10)];
    TwoDigitsValue(h);
    assert Pow10(|dd|) == 100;
    assert NumeralValue(Numeral(NoSign, w, dd)) == (h / 100) as real + (h % 100) as real / 100.0;
    assert (h / 100) as real + (h % 100) as real / 100.0 == h as real / 100.0;
  }

  lemma TelemetryParts(mv: nat, h: nat, x: real, y: real)
    requires x == mv as real && y == h as real / 100.0
    ensures ParseSerialLine(Firmware.TelemetryText(mv, h)) == Ok(Sample(ToMillivolts(x, None), y))
  {
    var d, w := NatToDecimal(mv), NatToDecimal(h / 100);
    var dd := [DigitChar(h % 100 / 10), DigitChar(h % 10)];
    assert Firmware.FixedTwo(h) == w + "." + dd;
    TelemetryNormalizes(mv, h);
    PrintedValues(mv, h);
    LineParsesTo(Firmware.TelemetryText(mv, h), d, w, dd, x, y);
  }

  /** Every line the firmware prints is accepted by the GUI parser, which reads back the
      printed millivolts and the printed hundredths of NTU. A reading below 100 mV is
      taken for volts by the parser's unit rule and comes back a thousand times larger. */
  lemma TelemetryTextAccepted(mv: nat, h: nat)
    ensures var r := ParseSerialLine(Firmware.TelemetryText(mv, h));
      && r.Ok?
      && r.value.voltageMv == (if mv < 100 then 1000 * mv else mv) as real
      && 100.0 * r.value.turbidity == h as real
  {
    var x, y := mv as real, h as real / 100.0;
    TelemetryParts(mv, h, x, y);
    assert ToMillivolts(x, None) == (if mv < 100 then 1000 * mv else mv) as real;
  }

  /** Half a unit of the last written place is the most the two-decimal rounding moves a value. */
  lemma RoundHalfUpError(x: real)
    requires x >= 0.0
    ensures x - 0.5 < Firmware.RoundHalfUp(x) as real <= x + 0.5
  {
  }

  /** The firmware's reading, printed and parsed: the turbidity comes back within 0.005 NTU
      and a voltage of at least 100 mV within 0.5 mV. */
  lemma TelemetryLineRoundTrip(voltage: real, ntu: real)
    requires voltage >= 0.0 && ntu >= 0.0
    ensures var r := ParseSerialLine(Firmware.TelemetryLine(voltage, ntu));
      && r.Ok?
      && ntu - 0.005 < r.value.turbidity <= ntu + 0.005
      && (voltage >= 100.0 ==> voltage - 0.5 < r.value.voltageMv <= voltage + 0.5)
  {
    var mv, h := Firmware.RoundHalfUp(voltage), Firmware.RoundHalfUp(ntu * 100.0);
    TelemetryTextAccepted(mv, h);
    RoundHalfUpError(voltage);
    RoundHalfUpError(ntu * 100.0);
    if voltage >= 100.0 {
      assert mv >= 100;
    }
  }
}
