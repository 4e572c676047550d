/**
 * The desktop monitor's water-status labels and its four-step alert level
 * (turbidity_sensor_gui.py `get_water_status_bootstyle` and the level chosen in
 * `_update`), and the dashboard's level, which uses the same breakpoints.
 */
module Classify {

  /** The five labels, from clearest to most turbid. */
  datatype Status = DistilledWater | ClearWater | SlightlyCloudy | Cloudy | VeryCloudy

  /** The widget style shown with a label. */
  datatype Style = Success | Info | Warning | Danger

  /** The label as the program writes it. */
  function StatusText(s: Status): string {
    match s
    case DistilledWater => "N\U{1B0}\U{1EDB}c c\U{1EA5}t"
    case ClearWater => "N\U{1B0}\U{1EDB}c trong"
    case SlightlyCloudy => "N\U{1B0}\U{1EDB}c h\U{1A1}i \U{111}\U{1EE5}c"
    case Cloudy => "N\U{1B0}\U{1EDB}c \U{111}\U{1EE5}c"
    case VeryCloudy => "N\U{1B0}\U{1EDB}c r\U{1EA5}t \U{111}\U{1EE5}c"
  }

  /** Position of a label in the order of increasing turbidity. */
  function Rank(s: Status): nat {
    match s
    case DistilledWater => 0
    case ClearWater => 1
    case SlightlyCloudy => 2
    case Cloudy => 3
    case VeryCloudy => 4
  }

  /** `get_water_status_bootstyle`: below 1 NTU, up to 10, up to 50, up to 100, above. */
  function WaterStatus(ntu: real): (Status, Style) {
    if ntu < 1.0 then (DistilledWater, Success)
    else if ntu <= 10.0 then (ClearWater, Info)
    else if ntu <= 50.0 then (SlightlyCloudy, Warning)
    else if ntu <= 100.0 then (Cloudy, Danger)
    else (VeryCloudy, Danger)
  }

  function StatusOf(ntu: real): Status {
    WaterStatus(ntu).0
  }

  /** The alert level: strictly above 100 NTU is 3, above 50 is 2, above 10 is 1. */
  function AlertLevel(ntu: real): (level: nat)
    ensures level <= 3
    ensures level == 0 <==> ntu <= 10.0
    ensures level == 3 <==> ntu > 100.0
  {
    if ntu > 100.0 then 3
    else if ntu > 50.0 then 2
    else if ntu > 10.0 then 1
    else 0
  }

  /** The level that belongs to each label. */
  function LevelOf(s: Status): (level: nat)
    ensures level <= 3
  {
    match s
    case DistilledWater => 0
    case ClearWater => 0
    case SlightlyCloudy => 1
    case Cloudy => 2
    case VeryCloudy => 3
  }

  /** Each label covers exactly its band of turbidity. */
  lemma StatusBands(ntu: real)
    ensures StatusOf(ntu) == DistilledWater <==> ntu < 1.0
    ensures StatusOf(ntu) == ClearWater <==> 1.0 <= ntu <= 10.0
    ensures StatusOf(ntu) == SlightlyCloudy <==> 10.0 < ntu <= 50.0
    ensures StatusOf(ntu) == Cloudy <==> 50.0 < ntu <= 100.0
    ensures StatusOf(ntu) == VeryCloudy <==> 100.0 < ntu
  {
  }

  /** The style goes with the label: only the two most turbid labels share one. */
  lemma StyleFollowsStatus(a: real, b: real)
    ensures StatusOf(a) == StatusOf(b) ==> WaterStatus(a).1 == WaterStatus(b).1
    ensures WaterStatus(a).1 == Danger <==> StatusOf(a) in {Cloudy, VeryCloudy}
  {
  }

  /** More turbid water never gets a clearer label. */
  lemma StatusMonotone(a: real, b: real)
    requires a <= b
    ensures Rank(StatusOf(a)) <= Rank(StatusOf(b))
  {
  }

  lemma AlertLevelMonotone(a: real, b: real)
    requires a <= b
    ensures AlertLevel(a) <= AlertLevel(b)
  {
  }

  /** The level and the label agree: level 0 is exactly "distilled" or "clear" water,
      and each of the other labels has a level of its own. */
  lemma AlertLevelMatchesStatus(ntu: real)
    ensures AlertLevel(ntu) == LevelOf(StatusOf(ntu))
    ensures AlertLevel(ntu) == 0 <==> StatusOf(ntu) == DistilledWater || StatusOf(ntu) == ClearWater
  {
  }

  /** Distinct labels are distinct strings, so comparing the text (as the program does)
      and comparing the labels are the same test. */
  lemma StatusTextInjective(s: Status, t: Status)
    ensures StatusText(s) == StatusText(t) <==> s == t
  {
  }
}
