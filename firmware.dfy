/**
 * The Arduino firmware (src/main.cpp): the voltage-to-NTU calibration, the
 * averaged ADC read, the one-byte command handler, the reading interval on the
 * wrapping 32-bit millisecond clock and the telemetry line it prints.
 * ADC counts, received bytes and clock readings are inputs; pins and the serial
 * port are the fields of `Controller`.
 */
module Firmware {
  import opened Wrappers
  import opened Text

  const U0: real := 3600.0            // reference voltage at 0 NTU (mV)
  const VCC: real := 5000.0           // supply voltage (mV)
  const ADC_MAX_COUNT: real := 1023.0
  const READING_INTERVAL: nat := 1000 // ms between readings
  const SAMPLES: nat := 15            // ADC reads averaged per reading

  /** `unsigned long` and `uint32_t` are 32 bits wide on the AVR. */
  const WORD: nat := 0x1_0000_0000

  /** C's conversion of a floating-point value to an integer: truncation toward zero. */
  function Trunc(x: real): int {
    if x >= 0.0 then x.Floor else -((-x).Floor)
  }

  /** C's integer division, which truncates toward zero. */
  function CDiv(a: int, b: int): int
    requires b != 0
  {
    var q := (if a >= 0 then a else -a) / (if b > 0 then b else -b);
    if (a >= 0) == (b > 0) then q else -q
  }

  /** Arduino's `map` on `long`s. */
  function ArduinoMap(x: int, inMin: int, inMax: int, outMin: int, outMax: int): int
    requires inMax != inMin
  {
    CDiv((x - inMin) * (outMax - outMin), inMax - inMin) + outMin
  }

  /** The calibration's `map(x, 0, 100, 1000, 0)` is exactly `1000 - 10 x`: the
      division by 100 never truncates, whatever the sign of `x`. */
  lemma MapCalibrationIsLinear(x: int)
    ensures ArduinoMap(x, 0, 100, 1000, 0) == 1000 - 10 * x
  {
    var a := (x - 0) * (0 - 1000);
    assert a == 100 * (-10 * x);
    if x >= 0 {
      assert -a == 100 * (10 * x);
      assert (-a) / 100 == 10 * x;
    } else {
      assert a == 100 * (-10 * x) && -10 * x > 0;
      assert a / 100 == -10 * x;
    }
  }

  function Constrain(x: real, lo: real, hi: real): real
    requires lo <= hi
  {
    if x < lo then lo else if x > hi then hi else x
  }

  /** `voltageToNTU`: the ratio to U0 within [0.98, 1.0] reads as clear water, and
      otherwise the ratio in percent, truncated, is mapped linearly onto 1000..0 NTU;
      the result is constrained to the sensor range. */
  function VoltageToNtu(voltage: real): (ntu: real)
    ensures 0.0 <= ntu <= 1000.0
  {
    var f := voltage / U0;
    var raw := if 0.98 <= f <= 1.0 then 0.0 else ArduinoMap(Trunc(f * 100.0), 0, 100, 1000, 0) as real;
    Constrain(raw, 0.0, 1000.0)
  }

  lemma VoltageToNtuFormula(voltage: real)
    ensures var f := voltage / U0;
      VoltageToNtu(voltage) ==
        if 0.98 <= f <= 1.0 then 0.0
        else Constrain((1000 - 10 * Trunc(100.0 * f)) as real, 0.0, 1000.0)
  {
    var f := voltage / U0;
    assert f * 100.0 == 100.0 * f;
    MapCalibrationIsLinear(Trunc(f * 100.0));
  }

  lemma TruncMonotone(x: real, y: real)
    requires x <= y
    ensures Trunc(x) <= Trunc(y)
  {
    if x < 0.0 && y < 0.0 {
      assert (-y).Floor <= (-x).Floor;
    }
  }

  /** A higher voltage never reads as more turbid. */
  lemma {:induction false} VoltageToNtuNonIncreasing(v1: real, v2: real)
    requires v1 <= v2
    ensures VoltageToNtu(v2) <= VoltageToNtu(v1)
  {
    var f1, f2 := v1 / U0, v2 / U0;
    assert f1 <= f2;
    VoltageToNtuFormula(v1);
    VoltageToNtuFormula(v2);
    TruncMonotone(100.0 * f1, 100.0 * f2);
    var in1, in2 := 0.98 <= f1 <= 1.0, 0.98 <= f2 <= 1.0;
    if !in2 && in1 {
      assert f2 > 1.0;
      assert Trunc(100.0 * f2) >= 100;
    }
  }

  // ---------------------------------------------------------------------------
  // The averaged read.

  function SumCounts(counts: seq<int>): int {
    if counts == [] then 0 else SumCounts(counts[..|counts| - 1]) + counts[|counts| - 1]
  }

  predicate AreAdcCounts(counts: seq<int>) {
    forall k | 0 <= k < |counts| :: 0 <= counts[k] <= 1023
  }

  /** Fifteen (indeed up to 65535) ten-bit counts never overflow the 32-bit sum. */
  lemma {:induction false} SumOfCountsBounded(counts: seq<int>)
    requires AreAdcCounts(counts)
    ensures 0 <= SumCounts(counts) <= 1023 * |counts|
  {
    if counts != [] {
      SumOfCountsBounded(counts[..|counts| - 1]);
    }
  }

  /** A mean of values at most `bound` is at most `bound`. */
  lemma MeanAtMost(sum: real, n: real, bound: real)
    requires n > 0.0 && sum <= bound * n
    ensures sum / n <= bound
  {
    assert sum / n * n == sum;
    assert (bound - sum / n) * n == bound * n - sum;
  }

  /** The millivolts that the mean of the counts stands for. */
  function SensorMillivolts(counts: seq<int>): real
    requires |counts| > 0
  {
    (SumCounts(counts) as real / |counts| as real) / ADC_MAX_COUNT * VCC
  }

  /** `readSensorVoltage`: the counts are accumulated in a `uint32_t` and their mean is
      scaled to millivolts. With no samples C divides 0.0 by 0.0; that NaN is `None`. */
  method ReadSensorVoltage(counts: seq<int>) returns (mv: Option<real>)
    requires |counts| < 0x1_0000   // `samples` is a uint16_t
    requires AreAdcCounts(counts)
    ensures mv.Some? <==> |counts| > 0
    ensures mv.Some? ==> mv.value == SensorMillivolts(counts)
    ensures mv.Some? ==> 0.0 <= mv.value <= VCC
  {
    var sum: nat := 0;
    var i := 0;
    while i < |counts|
      invariant 0 <= i <= |counts|
      invariant sum == SumCounts(counts[..i])
    {
      SumOfCountsBounded(counts[..i + 1]);
      assert counts[..i + 1][..i] == counts[..i];
      sum := (sum + counts[i]) % WORD;
      i := i + 1;
    }
    assert counts[..i] == counts;
    if |counts| == 0 {
      mv := None;
    } else {
      SumOfCountsBounded(counts);
      var avg := sum as real / |counts| as real;
      MeanAtMost(sum as real, |counts| as real, 1023.0);
      mv := Some(avg / ADC_MAX_COUNT * VCC);
    }
  }

  // ---------------------------------------------------------------------------
  // Commands, the reading interval and the telemetry line.

  /** One received byte: 'A' raises the alert pin and acknowledges, 'S' lowers it
      and acknowledges, anything else (or no byte) changes nothing and says nothing.
      Returns the new pin level (true is HIGH) and the lines printed. */
  function HandleCommand(pinHigh: bool, cmd: Option<char>): (r: (bool, seq<string>))
    ensures cmd == Some('A') ==> r == (true, ["ACK:A"])
    ensures cmd == Some('S') ==> r == (false, ["ACK:S"])
    ensures cmd != Some('A') && cmd != Some('S') ==> r == (pinHigh, [])
  {
    match cmd
    case Some(c) =>
      if c == 'A' then (true, ["ACK:A"])
      else if c == 'S' then (false, ["ACK:S"])
      else (pinHigh, [])
    case None => (pinHigh, [])
  }

  /** `millis() - lastReading` in unsigned 32-bit arithmetic. */
  function Elapsed(now: nat, last: nat): nat
    requires now < WORD && last < WORD
  {
    (now - last) % WORD
  }

  predicate ReadingDue(now: nat, last: nat)
    requires now < WORD && last < WORD
  {
    Elapsed(now, last) >= READING_INTERVAL
  }

  /** The unsigned difference recovers the true elapsed time across a wrap of the clock,
      so a reading is due exactly when at least a second has really passed. */
  lemma ElapsedAcrossWrap(last: nat, d: nat)
    requires last < WORD && d < WORD
    ensures Elapsed((last + d) % WORD, last) == d
    ensures ReadingDue((last + d) % WORD, last) <==> d >= READING_INTERVAL
  {
    var now := (last + d) % WORD;
    if last + d < WORD {
      assert now == last + d;
    } else {
      assert now == last + d - WORD;
      assert now - last == d - WORD;
    }
  }

  /** `Serial.print(x, digits)` for a non-negative value: Arduino's `printFloat` adds half a
      unit of the last printed place and truncates. Returns the printed value in units of
      that place. */
  function RoundHalfUp(x: real): nat
    requires x >= 0.0
  {
    (x + 0.5).Floor
  }

  /** A value given in hundredths, printed with two decimals. */
  function FixedTwo(hundredths: nat): string {
    NatToDecimal(hundredths / 100) + "." + [DigitChar(hundredths % 100 / 10), DigitChar(hundredths % 10)]
  }

  /** The printed line: `Vôn:<mV>,Độ đục:<NTU with two decimals>`. */
  function TelemetryText(millivolts: nat, hundredths: nat): string {
    "V\U{F4}n:" + NatToDecimal(millivolts) + ",\U{110}\U{1ED9} \U{111}\U{1EE5}c:" + FixedTwo(hundredths)
  }

  function TelemetryLine(voltage: real, ntu: real): string
    requires voltage >= 0.0 && ntu >= 0.0
  {
    TelemetryText(RoundHalfUp(voltage), RoundHalfUp(ntu * 100.0))
  }

  /** The board: the alert pin, the time of the last reading and the lines written to
      the serial port. */
  class Controller {
    var lastReading: nat
    var alertHigh: bool
    var serialOut: seq<string>

    ghost predicate Valid()
      reads this
    {
      lastReading < WORD
    }

    /** Power-up: `lastReading` is 0 and `setup()` drives the alert pin LOW. */
    constructor ()
      ensures Valid() && lastReading == 0 && !alertHigh && serialOut == []
    {
      lastReading := 0;
      alertHigh := false;
      serialOut := [];
    }

    /** One pass of `loop()`. `cmd` is the byte waiting on the serial port, if any;
        `nowMs` is `millis()` at the interval test and `afterMs` when the reading is done;
        `counts` are the fifteen ADC reads. */
    method Loop(cmd: Option<char>, nowMs: nat, counts: seq<int>, afterMs: nat)
      requires Valid() && nowMs < WORD && afterMs < WORD
      requires |counts| == SAMPLES && AreAdcCounts(counts)
      modifies this
      ensures Valid()
      ensures alertHigh == HandleCommand(old(alertHigh), cmd).0
      ensures var acks := HandleCommand(old(alertHigh), cmd).1;
        if ReadingDue(nowMs, old(lastReading)) then
          var v := SensorMillivolts(counts);
          && 0.0 <= v
          && serialOut == old(serialOut) + acks + [TelemetryLine(v, VoltageToNtu(v))]
          && lastReading == afterMs
        else
          serialOut == old(serialOut) + acks && lastReading == old(lastReading)
    {
      var handled := HandleCommand(alertHigh, cmd);
      alertHigh := handled.0;
      serialOut := serialOut + handled.1;
      if Elapsed(nowMs, lastReading) >= READING_INTERVAL {
        var voltage := ReadSensorVoltage(counts);
        var mv := voltage.value;
        var ntu := VoltageToNtu(mv);
        serialOut := serialOut + [TelemetryLine(mv, ntu)];
        lastReading := afterMs;
      }
    }
  }
}
