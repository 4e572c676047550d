/**
 * The analysis `_update` runs over `recent_samples` in turbidity_sensor_gui.py: the
 * time windows, the least-squares slope, the short-window rate alarm, the
 * end-point `is_trend_rising` test, the rolling fit drawn over the chart and the
 * bounded buffers. Values are exact reals; times are seconds.
 */
module Trend {
  import opened Wrappers

  /** An entry of `recent_samples`: when it was taken and its turbidity. */
  datatype Reading = Reading(at: real, ntu: real)

  const RECENT_CAPACITY: nat := 120       // deque(maxlen=120)
  const CHART_CAPACITY: nat := 50         // the chart keeps the last 50 points
  const RATE_WINDOW_SEC: real := 60.0
  const RATE_ALERT_SLOPE: real := 20.0    // NTU per minute
  const RATE_MIN_DELTA: real := 10.0
  const RATE_MIN_POINTS: nat := 3
  const TREND_WINDOW_SEC: real := 60.0
  const TREND_ALERT_SLOPE: real := 30.0   // NTU per minute
  const TREND_LINE_WINDOW_SEC: real := 300.0
  /** `max(0.1, TREND_ROLLING_WINDOW_SEC / 60.0)` with a 60 s rolling window, in minutes. */
  const ROLL_MINUTES: real := 1.0

  function Max(a: real, b: real): real { if a >= b then a else b }

  // ---------------------------------------------------------------------------
  // Bounded buffers.

  /** The newest `n` entries: what a `deque(maxlen=n)` holds, and what `xs[-n:]` keeps
      of a list longer than `n`. */
  function LastN<T>(s: seq<T>, n: nat): (r: seq<T>)
    ensures |r| <= n && |r| <= |s|
    ensures |s| <= n ==> r == s
    ensures |s| > n ==> |r| == n
    ensures r == s[|s| - |r|..]
  {
    if |s| <= n then s else s[|s| - n..]
  }

  /** Appending to the bounded buffer and then trimming it keeps exactly the newest `n`
      of everything ever appended. */
  lemma LastNAppend<T>(s: seq<T>, x: T, n: nat)
    requires n > 0
    ensures LastN(LastN(s, n) + [x], n) == LastN(s + [x], n)
  {
    var t := LastN(s, n);
    var u := s + [x];
    assert t + [x] == u[|u| - |t| - 1..];
  }

  // ---------------------------------------------------------------------------
  // Windows.

  /** `[s for s in samples if s[0] >= cutoff]`. */
  function Since(samples: seq<Reading>, cutoff: real): (w: seq<Reading>)
    ensures |w| <= |samples|
    ensures forall r :: r in w <==> r in samples && r.at >= cutoff
  {
    if samples == [] then []
    else (if samples[0].at >= cutoff then [samples[0]] else []) + Since(samples[1..], cutoff)
  }

  /** The window of a concatenation is the concatenation of the windows: the filter keeps
      the samples in their order. */
  lemma {:induction false} SinceConcat(a: seq<Reading>, b: seq<Reading>, cutoff: real)
    ensures Since(a + b, cutoff) == Since(a, cutoff) + Since(b, cutoff)
  {
    if a != [] {
      assert (a + b)[1..] == a[1..] + b;
      SinceConcat(a[1..], b, cutoff);
    } else {
      assert a + b == b;
    }
  }

  predicate TimeOrdered(s: seq<Reading>) {
    forall i, j | 0 <= i < j < |s| :: s[i].at <= s[j].at
  }

  /** On samples in time order the window is a suffix: the newest samples. */
  lemma {:induction false} SinceIsSuffix(s: seq<Reading>, cutoff: real)
    requires TimeOrdered(s)
    ensures Since(s, cutoff) == s[|s| - |Since(s, cutoff)|..]
  {
    if s != [] {
      SinceIsSuffix(s[1..], cutoff);
      if s[0].at >= cutoff {
        SinceKeepsAll(s[1..], cutoff);
        assert [s[0]] + s[1..] == s;
      }
    }
  }

  lemma {:induction false} SinceKeepsAll(s: seq<Reading>, cutoff: real)
    requires forall k | 0 <= k < |s| :: s[k].at >= cutoff
    ensures Since(s, cutoff) == s
  {
    if s != [] {
      SinceKeepsAll(s[1..], cutoff);
      assert [s[0]] + s[1..] == s;
    }
  }

  /** Elapsed minutes of each sample since `t0`. */
  function Minutes(w: seq<Reading>, t0: real): (ts: seq<real>)
    ensures |ts| == |w|
    ensures forall k | 0 <= k < |w| :: ts[k] == (w[k].at - t0) / 60.0
  {
    if w == [] then [] else [(w[0].at - t0) / 60.0] + Minutes(w[1..], t0)
  }

  function Values(w: seq<Reading>): (ys: seq<real>)
    ensures |ys| == |w|
    ensures forall k | 0 <= k < |w| :: ys[k] == w[k].ntu
  {
    if w == [] then [] else [w[0].ntu] + Values(w[1..])
  }

  // ---------------------------------------------------------------------------
  // Least squares.

  function Sum(xs: seq<real>): real {
    if xs == [] then 0.0 else xs[0] + Sum(xs[1..])
  }

  function Mean(xs: seq<real>): real
    requires |xs| > 0
  {
    Sum(xs) / |xs| as real
  }

  /** The deviations `t - m` of each point from `m`. */
  function Deviations(xs: seq<real>, m: real): (ds: seq<real>)
    ensures |ds| == |xs|
  {
    if xs == [] then [] else [xs[0] - m] + Deviations(xs[1..], m)
  }

  lemma {:induction false} DeviationsAt(xs: seq<real>, m: real)
    ensures forall k | 0 <= k < |xs| :: Deviations(xs, m)[k] == xs[k] - m
  {
    if xs != [] {
      DeviationsAt(xs[1..], m);
      assert forall k | 1 <= k < |xs| :: Deviations(xs, m)[k] == Deviations(xs[1..], m)[k - 1];
    }
  }

  /** `sum(u * v for u, v in zip(us, vs))`. */
  function SumProducts(us: seq<real>, vs: seq<real>): real
    requires |us| == |vs|
  {
    if us == [] then 0.0 else us[0] * vs[0] + SumProducts(us[1..], vs[1..])
  }

  /** `sum((t - m) ** 2 for t in xs)`. */
  function SumSqDev(xs: seq<real>, m: real): real {
    SumProducts(Deviations(xs, m), Deviations(xs, m))
  }

  /** `sum((t - mt) * (y - my) for t, y in zip(ts, ys))`. */
  function SumCrossDev(ts: seq<real>, ys: seq<real>, mt: real, my: real): real
    requires |ts| == |ys|
  {
    SumProducts(Deviations(ts, mt), Deviations(ys, my))
  }

  /** Python's `x or 1e-9`: a zero denominator is replaced by 1e-9. */
  function OrTiny(x: real): real {
    if x == 0.0 then 0.000000001 else x
  }

  /** The least-squares slope of `ys` against `ts`. */
  function Slope(ts: seq<real>, ys: seq<real>): real
    requires |ts| == |ys| > 0
  {
    SumCrossDev(ts, ys, Mean(ts), Mean(ys)) / OrTiny(SumSqDev(ts, Mean(ts)))
  }

  /** Points on the line `y = a + b t`, stated point by point from the first. */
  predicate OnLine(ts: seq<real>, ys: seq<real>, a: real, b: real)
    decreases |ts|
  {
    |ts| == |ys| && (ts == [] || (ys[0] == a + b * ts[0] && OnLine(ts[1..], ys[1..], a, b)))
  }

  lemma {:induction false} OnLineAt(ts: seq<real>, ys: seq<real>, a: real, b: real, k: nat)
    requires OnLine(ts, ys, a, b) && k < |ts|
    ensures ys[k] == a + b * ts[k]
  {
    if k > 0 {
      OnLineAt(ts[1..], ys[1..], a, b, k - 1);
    }
  }

  lemma {:induction false} PointsOnLine(ts: seq<real>, ys: seq<real>, a: real, b: real)
    requires |ts| == |ys| && forall k | 0 <= k < |ts| :: ys[k] == a + b * ts[k]
    ensures OnLine(ts, ys, a, b)
  {
    if ts != [] {
      forall k | 0 <= k < |ts| - 1
        ensures ys[1..][k] == a + b * ts[1..][k]
      {
        assert ys[k + 1] == a + b * ts[k + 1];
      }
      PointsOnLine(ts[1..], ys[1..], a, b);
    }
  }

  lemma {:induction false} SumOnLine(ts: seq<real>, ys: seq<real>, a: real, b: real)
    requires OnLine(ts, ys, a, b)
    ensures Sum(ys) == |ts| as real * a + b * Sum(ts)
  {
    if ts != [] {
      SumOnLine(ts[1..], ys[1..], a, b);
      assert b * Sum(ts) == b * ts[0] + b * Sum(ts[1..]);
    }
  }

  /** On a line the mean point lies on the line too. */
  lemma MeanOnLine(ts: seq<real>, ys: seq<real>, a: real, b: real)
    requires OnLine(ts, ys, a, b) && |ts| > 0
    ensures Mean(ys) == a + b * Mean(ts)
  {
    SumOnLine(ts, ys, a, b);
    var n := |ts| as real;
    assert Sum(ys) == n * a + b * Sum(ts);
    AffineMean(n, Sum(ts), a, b);
    assert Mean(ys) == Sum(ys) / n;
    assert Mean(ts) == Sum(ts) / n;
  }

  /** Dividing `n a + b s` by `n` gives `a + b (s / n)`. */
  lemma AffineMean(n: real, s: real, a: real, b: real)
    requires n > 0.0
    ensures (n * a + b * s) / n == a + b * (s / n)
  {
    var q := s / n;
    assert s == q * n;
    assert n * a + b * s == (a + b * q) * n;
  }

  /** Two sequences with the same entries, compared entry by entry. */
  predicate SameEntries(us: seq<real>, vs: seq<real>) {
    |us| == |vs| && forall i | 0 <= i < |us| :: us[i] == vs[i]
  }

  lemma SameEntriesTail(us: seq<real>, vs: seq<real>)
    requires SameEntries(us, vs) && us != []
    ensures SameEntries(us[1..], vs[1..])
  {
    forall i | 0 <= i < |us| - 1
      ensures us[1..][i] == vs[1..][i]
    {
      assert us[i + 1] == vs[i + 1];
    }
  }

  lemma ScaleStep(u: real, v: real, w: real, b: real, sv: real, sw: real)
    requires v == b * w && sv == b * sw
    ensures u * v + sv == b * (u * w + sw)
  {
  }

  /** Scaling one factor of every product scales the sum. */
  lemma {:induction false} SumProductsScaled(us: seq<real>, vs: seq<real>, ws: seq<real>, b: real)
    requires |us| == |vs| == |ws|
    requires forall k | 0 <= k < |us| :: vs[k] == b * ws[k]
    ensures SumProducts(us, vs) == b * SumProducts(us, ws)
  {
    if us != [] {
      assert forall k | 0 <= k < |us| - 1 :: vs[1..][k] == b * ws[1..][k] by {
        forall k | 0 <= k < |us| - 1
          ensures vs[1..][k] == b * ws[1..][k]
        {
          assert vs[k + 1] == b * ws[k + 1];
        }
      }
      SumProductsScaled(us[1..], vs[1..], ws[1..], b);
      ScaleStep(us[0], vs[0], ws[0], b, SumProducts(us[1..], vs[1..]), SumProducts(us[1..], ws[1..]));
    }
  }

  lemma CrossOnLine(ts: seq<real>, ys: seq<real>, mt: real, my: real, b: real)
    requires |ts| == |ys|
    requires forall k | 0 <= k < |ts| :: ys[k] - my == b * (ts[k] - mt)
    ensures SumCrossDev(ts, ys, mt, my) == b * SumSqDev(ts, mt)
  {
    var ds, es := Deviations(ts, mt), Deviations(ys, my);
    DeviationsAt(ts, mt);
    DeviationsAt(ys, my);
    forall k | 0 <= k < |ts|
      ensures es[k] == b * ds[k]
    {
      assert ys[k] - my == b * (ts[k] - mt);
    }
    SumProductsScaled(ds, es, ds, b);
  }

  /** The slope reproduces the gradient of points on a line; when all the times coincide
      the zero denominator is replaced and the slope is 0. */
  lemma SlopeOfLine(ts: seq<real>, ys: seq<real>, a: real, b: real)
    requires OnLine(ts, ys, a, b) && |ts| > 0
    ensures SumSqDev(ts, Mean(ts)) != 0.0 ==> Slope(ts, ys) == b
    ensures SumSqDev(ts, Mean(ts)) == 0.0 ==> Slope(ts, ys) == 0.0
  {
    LineCross(ts, ys, a, b);
    SlopeOfMultiple(ts, ys, b);
  }

  lemma LineCross(ts: seq<real>, ys: seq<real>, a: real, b: real)
    requires OnLine(ts, ys, a, b) && |ts| > 0
    ensures SumCrossDev(ts, ys, Mean(ts), Mean(ys)) == b * SumSqDev(ts, Mean(ts))
  {
    var mt, my := Mean(ts), Mean(ys);
    assert my == a + b * mt by { MeanOnLine(ts, ys, a, b); }
    CrossOfLine(ts, ys, a, b, mt, my);
  }

  /** Cross deviations that are `b` times the spread give slope `b`, or 0 without spread. */
  lemma SlopeOfMultiple(ts: seq<real>, ys: seq<real>, b: real)
    requires |ts| == |ys| > 0
    requires SumCrossDev(ts, ys, Mean(ts), Mean(ys)) == b * SumSqDev(ts, Mean(ts))
    ensures SumSqDev(ts, Mean(ts)) != 0.0 ==> Slope(ts, ys) == b
    ensures SumSqDev(ts, Mean(ts)) == 0.0 ==> Slope(ts, ys) == 0.0
  {
    var num, den := SumCrossDev(ts, ys, Mean(ts), Mean(ys)), SumSqDev(ts, Mean(ts));
    assert Slope(ts, ys) == num / OrTiny(den);
  }

  /** About a point of the line the cross deviations are the gradient times the spread
      of the times. */
  lemma CrossOfLine(ts: seq<real>, ys: seq<real>, a: real, b: real, mt: real, my: real)
    requires OnLine(ts, ys, a, b) && my == a + b * mt
    ensures SumCrossDev(ts, ys, mt, my) == b * SumSqDev(ts, mt)
  {
    DeviationsProportional(ts, ys, a, b, mt, my);
    CrossOnLine(ts, ys, mt, my, b);
  }

  /** About a point of the line, every point deviates by the gradient times its offset. */
  lemma DeviationsProportional(ts: seq<real>, ys: seq<real>, a: real, b: real, mt: real, my: real)
    requires OnLine(ts, ys, a, b) && my == a + b * mt
    ensures forall k | 0 <= k < |ts| :: ys[k] - my == b * (ts[k] - mt)
  {
    forall k | 0 <= k < |ts|
      ensures ys[k] - my == b * (ts[k] - mt)
    {
      OnLineAt(ts, ys, a, b, k);
    }
  }

  lemma ProductPositive(a: real, b: real)
    requires a > 0.0 && b > 0.0
    ensures a * b > 0.0
  {
  }

  /** The product of two equal factors is never negative, and positive unless they are 0. */
  lemma EqualFactors(a: real, b: real)
    requires a == b
    ensures a * b >= 0.0
    ensures a != 0.0 ==> a * b > 0.0
  {
    if a > 0.0 {
      ProductPositive(a, b);
    } else if a < 0.0 {
      ProductPositive(-a, -b);
    }
  }

  lemma {:induction false} SumSquaresNonNegative(us: seq<real>, vs: seq<real>)
    requires SameEntries(us, vs)
    ensures SumProducts(us, vs) >= 0.0
  {
    if us != [] {
      EqualFactors(us[0], vs[0]);
      SameEntriesTail(us, vs);
      SumSquaresNonNegative(us[1..], vs[1..]);
    }
  }

  lemma {:induction false} SumSquaresPositive(us: seq<real>, vs: seq<real>, k: nat)
    requires SameEntries(us, vs) && k < |us| && us[k] != 0.0
    ensures SumProducts(us, vs) > 0.0
  {
    EqualFactors(us[0], vs[0]);
    SameEntriesTail(us, vs);
    if k == 0 {
      SumSquaresNonNegative(us[1..], vs[1..]);
    } else {
      SumSquaresPositive(us[1..], vs[1..], k - 1);
    }
  }

  /** Squared deviations never sum to a negative number. */
  lemma SumSqDevNonNegative(xs: seq<real>, m: real)
    ensures SumSqDev(xs, m) >= 0.0
  {
    SumSquaresNonNegative(Deviations(xs, m), Deviations(xs, m));
  }

  /** Times that are not all equal have a nonzero spread about their mean. */
  lemma SpreadNonZero(ts: seq<real>)
    requires |ts| > 0 && ts[0] != ts[|ts| - 1]
    ensures SumSqDev(ts, Mean(ts)) > 0.0
  {
    var ds := Deviations(ts, Mean(ts));
    var k := if ts[0] != Mean(ts) then 0 else |ts| - 1;
    DeviationsAt(ts, Mean(ts));
    SumSquaresPositive(ds, ds, k);
  }

  // ---------------------------------------------------------------------------
  // The short-window rate alarm.

  /** What the rate alarm reports: slope (NTU/min), rise (NTU) and span (min). */
  datatype RateAlarm = RateAlarm(slope: real, delta: real, minutes: real)

  /** The rate test of `_update` on the samples of one window. */
  function RateOf(w: seq<Reading>): (r: Option<RateAlarm>)
  {
    if |w| < RATE_MIN_POINTS then None
    else
      var ts, ys := Minutes(w, w[0].at), Values(w);
      var slope := Slope(ts, ys);
      var delta := w[|w| - 1].ntu - w[0].ntu;
      if slope >= RATE_ALERT_SLOPE && delta >= RATE_MIN_DELTA then
        Some(RateAlarm(slope, delta, Max(0.000001, ts[|ts| - 1] - ts[0])))
      else None
  }

  /** The rate alarm over the samples of the last minute. */
  function RateCheck(recent: seq<Reading>, now: real): Option<RateAlarm> {
    RateOf(Since(recent, now - RATE_WINDOW_SEC))
  }

  /** The alarm fires exactly when the window holds at least three samples, their slope
      is at least 20 NTU/min and the newest is at least 10 NTU above the oldest. */
  lemma RateOfGate(w: seq<Reading>)
    ensures RateOf(w).Some? <==>
        && |w| >= 3
        && Slope(Minutes(w, w[0].at), Values(w)) >= 20.0
        && w[|w| - 1].ntu - w[0].ntu >= 10.0
  {
  }

  /** The rate test on a buffer fires exactly when the samples of the last minute
      number at least three, rise at 20 NTU/min or more and by at least 10 NTU. */
  lemma RateCheckGate(recent: seq<Reading>, now: real, w: seq<Reading>)
    requires w == Since(recent, now - RATE_WINDOW_SEC)
    ensures RateCheck(recent, now).Some? <==>
        && |w| >= 3
        && Slope(Minutes(w, w[0].at), Values(w)) >= 20.0
        && w[|w| - 1].ntu - w[0].ntu >= 10.0
  {
    RateOfGate(w);
  }

  /** The alarm reports the window's slope, its rise and a positive span. */
  lemma RateOfReports(w: seq<Reading>)
    requires RateOf(w).Some?
    ensures RateOf(w).value.delta == w[|w| - 1].ntu - w[0].ntu
    ensures RateOf(w).value.slope == Slope(Minutes(w, w[0].at), Values(w))
    ensures RateOf(w).value.minutes >= 0.000001
  {
    var ts := Minutes(w, w[0].at);
    var slope := Slope(ts, Values(w));
    assert RateOf(w) == Some(RateAlarm(slope, w[|w| - 1].ntu - w[0].ntu, Max(0.000001, ts[|ts| - 1] - ts[0])));
  }

  /** Readings of the last minute that rise along a straight line at `b` NTU/min raise
      the alarm exactly when `b` is at least 20 and the rise is at least 10 NTU. */
  lemma RateOfLine(w: seq<Reading>, c: real, b: real)
    requires |w| >= 3 && OnLine(Minutes(w, w[0].at), Values(w), c, b)
    requires w[0].at != w[|w| - 1].at
    ensures RateOf(w).Some? <==> b >= 20.0 && w[|w| - 1].ntu - w[0].ntu >= 10.0
  {
    WindowSlopeOfLine(w, c, b);
    RateOfGate(w);
  }

  lemma WindowSlopeOfLine(w: seq<Reading>, c: real, b: real)
    requires |w| > 0 && OnLine(Minutes(w, w[0].at), Values(w), c, b)
    requires w[0].at != w[|w| - 1].at
    ensures Slope(Minutes(w, w[0].at), Values(w)) == b
  {
    var ts := Minutes(w, w[0].at);
    MinutesSpan(w);
    SpreadNonZero(ts);
    SlopeOfLine(ts, Values(w), c, b);
  }

  /** Minutes from the first reading start at 0 and end at a nonzero span. */
  lemma MinutesSpan(w: seq<Reading>)
    requires |w| > 0 && w[0].at != w[|w| - 1].at
    ensures Minutes(w, w[0].at)[0] != Minutes(w, w[0].at)[|w| - 1]
  {
    var ts := Minutes(w, w[0].at);
    assert ts[0] == 0.0;
    assert ts[|w| - 1] == (w[|w| - 1].at - w[0].at) / 60.0;
  }

  // ---------------------------------------------------------------------------
  // `is_trend_rising`.

  /** The end-point slope over the last minute: newest minus oldest turbidity over the
      elapsed minutes, floored at 1e-6 min, compared with 30 NTU/min. */
  function IsTrendRising(recent: seq<Reading>, now: real): bool {
    if |recent| < 2 then false
    else
      var w := Since(recent, now - TREND_WINDOW_SEC);
      if |w| < 2 then false
      else
        var dtMin := Max(0.000001, (w[|w| - 1].at - w[0].at) / 60.0);
        (w[|w| - 1].ntu - w[0].ntu) / dtMin >= TREND_ALERT_SLOPE
  }

  /** The test without the division: rising exactly when the last minute holds two samples
      and the newest exceeds the oldest by at least 30 NTU per elapsed minute. */
  lemma IsTrendRisingIff(recent: seq<Reading>, now: real)
    ensures var w := Since(recent, now - TREND_WINDOW_SEC);
      IsTrendRising(recent, now) <==>
        |w| >= 2 &&
        w[|w| - 1].ntu - w[0].ntu >= 30.0 * Max(0.000001, (w[|w| - 1].at - w[0].at) / 60.0)
  {
    var w := Since(recent, now - TREND_WINDOW_SEC);
    if |w| >= 2 {
      QuotientAtLeast(w[|w| - 1].ntu - w[0].ntu, Max(0.000001, (w[|w| - 1].at - w[0].at) / 60.0), 30.0);
    }
  }

  lemma QuotientAtLeast(x: real, d: real, c: real)
    requires d > 0.0
    ensures x / d >= c <==> x >= c * d
  {
    assert x == (x / d) * d;
  }

  /** A rising trend needs the newest sample of the minute to be more turbid than the oldest. */
  lemma TrendRisingMeansRise(recent: seq<Reading>, now: real)
    requires IsTrendRising(recent, now)
    ensures var w := Since(recent, now - TREND_WINDOW_SEC);
      |w| >= 2 && w[|w| - 1].ntu > w[0].ntu
  {
    IsTrendRisingIff(recent, now);
  }

  /** When every sample is from the last minute the whole buffer is the window. */
  lemma RisingOverFreshSamples(recent: seq<Reading>, now: real)
    requires |recent| >= 2
    requires forall k | 0 <= k < |recent| :: recent[k].at >= now - TREND_WINDOW_SEC
    ensures IsTrendRising(recent, now) <==>
      recent[|recent| - 1].ntu - recent[0].ntu >=
        30.0 * Max(0.000001, (recent[|recent| - 1].at - recent[0].at) / 60.0)
  {
    SinceKeepsAll(recent, now - TREND_WINDOW_SEC);
    assert Since(recent, now - TREND_WINDOW_SEC) == recent;
    IsTrendRisingIff(recent, now);
  }

  // ---------------------------------------------------------------------------
  // The rolling fit drawn over the chart.

  /** `[t for t in xs if t >= left]`, built from the end so that the newest point comes last. */
  function AtLeast(xs: seq<real>, left: real): (r: seq<real>)
    ensures |r| <= |xs|
  {
    if xs == [] then []
    else AtLeast(xs[..|xs| - 1], left) + (if xs[|xs| - 1] >= left then [xs[|xs| - 1]] else [])
  }

  /** The sub-window of point `i`: the times among the first `i + 1` no more than one
      rolling window before `ts[i]`. */
  function SubTimes(ts: seq<real>, i: nat): seq<real>
    requires i < |ts|
  {
    AtLeast(ts[..i + 1], ts[i] - ROLL_MINUTES)
  }

  /** The sub-window always holds the point itself, as its last entry. */
  lemma SubTimesEndsAtPoint(ts: seq<real>, i: nat)
    requires i < |ts|
    ensures |SubTimes(ts, i)| >= 1
    ensures SubTimes(ts, i)[|SubTimes(ts, i)| - 1] == ts[i]
  {
    assert ts[..i + 1][..i] == ts[..i];
  }

  /** The fitted value at point `i` given the values fitted before it. */
  function FitValue(ts: seq<real>, ys: seq<real>, i: nat, prev: seq<real>): real
    requires |ts| == |ys| && i < |ts|
  {
    var subT := SubTimes(ts, i);
    var subY := ys[i + 1 - |subT|..i + 1];
    if |subT| >= 2 then LineAt(subT, subY, ts[i])
    else if prev != [] then prev[|prev| - 1]
    else ys[i]
  }

  /** The least-squares line through the points, evaluated at `t`: `sl * t + itc` with
      `itc = my - sl * mt`. */
  function LineAt(ts: seq<real>, ys: seq<real>, t: real): real
    requires |ts| == |ys| > 0
  {
    var sl := Slope(ts, ys);
    sl * t + (Mean(ys) - sl * Mean(ts))
  }

  /** `y_fit_series` after its first `n` points. */
  function Fitted(ts: seq<real>, ys: seq<real>, n: nat): (fit: seq<real>)
    requires |ts| == |ys| && n <= |ts|
    ensures |fit| == n
  {
    if n == 0 then []
    else
      var prev := Fitted(ts, ys, n - 1);
      prev + [FitValue(ts, ys, n - 1, prev)]
  }

  /** The loop that fills `y_fit_series`, one value per point of the window. */
  method RollingFit(ts: seq<real>, ys: seq<real>) returns (fit: seq<real>)
    requires |ts| == |ys|
    ensures fit == Fitted(ts, ys, |ts|)
  {
    fit := [];
    var i := 0;
    while i < |ts|
      invariant 0 <= i <= |ts|
      invariant fit == Fitted(ts, ys, i)
    {
      var subT := AtLeast(ts[..i + 1], ts[i] - ROLL_MINUTES);
      var subY := ys[i + 1 - |subT|..i + 1];
      assert subT == SubTimes(ts, i);
      var value: real;
      if |subT| >= 2 {
        value := LineAt(subT, subY, ts[i]);
      } else if fit != [] {
        value := fit[|fit| - 1];
      } else {
        value := ys[i];
      }
      fit := fit + [value];
      i := i + 1;
    }
  }

  /** Later points never change the values already fitted. */
  lemma {:induction false} FittedPrefix(ts: seq<real>, ys: seq<real>, m: nat, n: nat)
    requires |ts| == |ys| && m <= n <= |ts|
    ensures Fitted(ts, ys, n)[..m] == Fitted(ts, ys, m)
  {
    if m < n {
      FittedPrefix(ts, ys, m, n - 1);
      assert Fitted(ts, ys, n)[..n - 1] == Fitted(ts, ys, n - 1);
    }
  }

  /** A point alone in its sub-window repeats the previous fitted value, and the first
      point takes its own reading. */
  lemma FitCarriesForward(ts: seq<real>, ys: seq<real>, i: nat)
    requires |ts| == |ys| && i < |ts| && |SubTimes(ts, i)| < 2
    ensures i == 0 ==> Fitted(ts, ys, |ts|)[i] == ys[0]
    ensures i > 0 ==> Fitted(ts, ys, |ts|)[i] == Fitted(ts, ys, |ts|)[i - 1]
  {
    FittedPrefix(ts, ys, i + 1, |ts|);
    var full := Fitted(ts, ys, |ts|);
    assert full[i] == Fitted(ts, ys, i + 1)[i];
    if i > 0 {
      FittedPrefix(ts, ys, i, |ts|);
      assert full[i - 1] == Fitted(ts, ys, i)[i - 1];
    }
  }

  lemma FirstSubWindow(ts: seq<real>)
    requires |ts| > 0
    ensures |SubTimes(ts, 0)| == 1
  {
    assert ts[..1] == [ts[0]];
    assert ts[..1][..0] == [];
  }

  /** The first fitted value is always the first reading: its sub-window holds one point. */
  lemma FirstFitIsReading(ts: seq<real>, ys: seq<real>)
    requires |ts| == |ys| > 0
    ensures Fitted(ts, ys, |ts|)[0] == ys[0]
  {
    FirstSubWindow(ts);
    FitCarriesForward(ts, ys, 0);
  }

  /** A point whose sub-window holds two or more points is fitted by the line through
      that sub-window. */
  lemma FitFromSubWindow(ts: seq<real>, ys: seq<real>, i: nat)
    requires |ts| == |ys| && i < |ts| && |SubTimes(ts, i)| >= 2
    ensures Fitted(ts, ys, |ts|)[i]
      == LineAt(SubTimes(ts, i), ys[i + 1 - |SubTimes(ts, i)|..i + 1], ts[i])
  {
    FittedPrefix(ts, ys, i + 1, |ts|);
    assert Fitted(ts, ys, |ts|)[i] == Fitted(ts, ys, i + 1)[i];
  }

  /** The fitted line through points that lie on a line is that line. */
  lemma LineAtOnLine(ts: seq<real>, ys: seq<real>, a: real, b: real, t: real)
    requires OnLine(ts, ys, a, b) && |ts| > 0 && ts[0] != ts[|ts| - 1]
    ensures LineAt(ts, ys, t) == a + b * t
  {
    SpreadNonZero(ts);
    SlopeOfLine(ts, ys, a, b);
    MeanOnLine(ts, ys, a, b);
    var mt := Mean(ts);
    assert b * t + (a + b * mt - b * mt) == a + b * t;
  }

  lemma OnLineSlice(ts: seq<real>, ys: seq<real>, a: real, b: real, j: nat, k: nat)
    requires OnLine(ts, ys, a, b) && j <= k <= |ts|
    ensures OnLine(ts[j..k], ys[j..k], a, b)
  {
    forall n | 0 <= n < k - j
      ensures ys[j..k][n] == a + b * ts[j..k][n]
    {
      OnLineAt(ts, ys, a, b, j + n);
    }
    PointsOnLine(ts[j..k], ys[j..k], a, b);
  }

  predicate Sorted(xs: seq<real>) {
    forall i, j | 0 <= i < j < |xs| :: xs[i] <= xs[j]
  }

  lemma {:induction false} AtLeastNone(xs: seq<real>, left: real)
    requires forall k | 0 <= k < |xs| :: xs[k] < left
    ensures AtLeast(xs, left) == []
  {
    if xs != [] {
      AtLeastNone(xs[..|xs| - 1], left);
    }
  }

  lemma SortedPrefix(xs: seq<real>, n: nat)
    requires Sorted(xs) && n <= |xs|
    ensures Sorted(xs[..n])
  {
    forall i, j | 0 <= i < j < n ensures xs[..n][i] <= xs[..n][j] {
      assert xs[..n][i] == xs[i] && xs[..n][j] == xs[j];
    }
  }

  lemma SortedBelowLast(xs: seq<real>, left: real)
    requires Sorted(xs) && xs != [] && xs[|xs| - 1] < left
    ensures AtLeast(xs[..|xs| - 1], left) == []
  {
    var init := xs[..|xs| - 1];
    forall k | 0 <= k < |init| ensures init[k] < left {
      assert init[k] == xs[k] <= xs[|xs| - 1];
    }
    AtLeastNone(init, left);
  }

  /** On times in order the sub-window is the newest stretch, so the readings `ys` sliced
      by its length line up with it. */
  lemma {:induction false} AtLeastSortedSuffix(xs: seq<real>, left: real)
    requires Sorted(xs)
    ensures AtLeast(xs, left) == xs[|xs| - |AtLeast(xs, left)|..]
  {
    if xs != [] {
      var n := |xs| - 1;
      var init := xs[..n];
      if xs[n] >= left {
        SortedPrefix(xs, n);
        AtLeastSortedSuffix(init, left);
        var m := |AtLeast(init, left)|;
        assert init[n - m..] + [xs[n]] == xs[n - m..];
      } else {
        SortedBelowLast(xs, left);
      }
    }
  }

  /** Readings in time order that lie on a line are fitted exactly wherever the
      sub-window spans more than one instant. */
  lemma FitOfLine(ts: seq<real>, ys: seq<real>, a: real, b: real, i: nat)
    requires |ts| == |ys| && i < |ts| && Sorted(ts) && OnLine(ts, ys, a, b)
    requires |SubTimes(ts, i)| >= 2 && SubTimes(ts, i)[0] != ts[i]
    ensures Fitted(ts, ys, |ts|)[i] == a + b * ts[i]
  {
    SubWindowLine(ts, ys, a, b, i);
    FitFromSubWindow(ts, ys, i);
  }

  lemma SubWindowLine(ts: seq<real>, ys: seq<real>, a: real, b: real, i: nat)
    requires |ts| == |ys| && i < |ts| && Sorted(ts) && OnLine(ts, ys, a, b)
    requires |SubTimes(ts, i)| >= 2 && SubTimes(ts, i)[0] != ts[i]
    ensures LineAt(SubTimes(ts, i), ys[i + 1 - |SubTimes(ts, i)|..i + 1], ts[i]) == a + b * ts[i]
  {
    var subT := SubTimes(ts, i);
    var subY := ys[i + 1 - |subT|..i + 1];
    SubWindowOnLine(ts, ys, a, b, i);
    SubTimesEndsAtPoint(ts, i);
    assert subT[0] != subT[|subT| - 1];
    LineAtOnLine(subT, subY, a, b, ts[i]);
  }

  lemma SubWindowOnLine(ts: seq<real>, ys: seq<real>, a: real, b: real, i: nat)
    requires |ts| == |ys| && i < |ts| && Sorted(ts) && OnLine(ts, ys, a, b)
    ensures OnLine(SubTimes(ts, i), ys[i + 1 - |SubTimes(ts, i)|..i + 1], a, b)
  {
    var k := |SubTimes(ts, i)|;
    SubTimesAligned(ts, i);
    OnLineSlice(ts, ys, a, b, i + 1 - k, i + 1);
  }

  lemma SubTimesAligned(ts: seq<real>, i: nat)
    requires i < |ts| && Sorted(ts)
    ensures SubTimes(ts, i) == ts[i + 1 - |SubTimes(ts, i)|..i + 1]
  {
    var pre := ts[..i + 1];
    assert Sorted(pre);
    AtLeastSortedSuffix(pre, ts[i] - ROLL_MINUTES);
  }

  // ---------------------------------------------------------------------------
  // The overlay drawn over the chart.

  /** Python's `s[-n:]`: for `n == 0` that is the whole list. */
  function PyTail<T>(s: seq<T>, n: nat): (r: seq<T>)
    ensures n == 0 || n >= |s| ==> r == s
    ensures 0 < n <= |s| ==> r == s[|s| - n..]
  {
    if n == 0 || n >= |s| then s else s[|s| - n..]
  }

  /** `list(range(a, b))`. */
  function Range(a: nat, b: nat): (r: seq<nat>)
    ensures |r| == if a <= b then b - a else 0
    ensures forall k | 0 <= k < |r| :: r[k] == a + k
    decreases b - a
  {
    if a >= b then [] else [a] + Range(a + 1, b)
  }

  /** What `trend_line.set_data` receives: chart indices and fitted values. */
  datatype Overlay = Overlay(xs: seq<nat>, ys: seq<real>)

  /** The fitted series over the last five minutes of `recent`, or none when that
      window holds fewer than two samples. */
  function TrendFit(recent: seq<Reading>, now: real): (fit: seq<real>)
  {
    var w := Since(recent, now - TREND_LINE_WINDOW_SEC);
    if |w| >= 2 then
      var ts := Minutes(w, w[0].at);
      Fitted(ts, Values(w), |ts|)
    else []
  }

  /** The overlay for a fitted series on a chart of `chartLen` points: the newest
      `tail_n` fitted values placed over the last `tail_n` chart indices. On a chart
      that holds at least one point each of the last chart indices is paired with one
      fitted value, the newest fitted value lands on the newest point, and the values
      are the newest of the fitted series in their order. */
  function OverlayOf(fit: seq<real>, chartLen: nat): (o: Overlay)
    ensures chartLen >= 1 ==>
      && |o.xs| == |o.ys| <= chartLen
      && (|fit| < 2 ==> o.xs == [])
      && (|fit| >= 2 ==> |o.xs| == (if |fit| <= chartLen then |fit| else chartLen))
      && (forall k | 0 <= k < |o.xs| :: o.xs[k] == chartLen - |o.xs| + k)
      && o.ys == fit[|fit| - |o.ys|..]
  {
    if |fit| >= 2 then
      var tailN := if |fit| <= chartLen then |fit| else chartLen;
      var xStart := if chartLen >= tailN then chartLen - tailN else 0;
      Overlay(Range(xStart, chartLen), PyTail(fit, tailN))
    else Overlay([], [])
  }

  function TrendOverlay(recent: seq<Reading>, now: real, chartLen: nat): Overlay {
    OverlayOf(TrendFit(recent, now), chartLen)
  }

  /** The fitted series has one value per sample of the five-minute window. */
  lemma TrendFitLength(recent: seq<Reading>, now: real)
    ensures var w := Since(recent, now - TREND_LINE_WINDOW_SEC);
      |TrendFit(recent, now)| == if |w| >= 2 then |w| else 0
  {
  }
}
