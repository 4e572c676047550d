/**
 * The desktop monitor of turbidity_sensor_gui.py as a state machine: what one
 * parsed sample does in `update_gui._update` (buffers, rate alert, label edge,
 * alert level, chart, trend overlay, log entry, rising-trend alarm), the two
 * outbound gates `send_serial_command` and `send_notification`, the hourly
 * `periodic_log`, and starting and stopping the monitor.
 *
 * Every call to the outside world is an appended `Event`; whether the write or
 * the HTTP request succeeded is an input (`Outcomes`). All clock reads inside one
 * update are the one instant `now`.
 */
module Monitor {
  import opened Wrappers
  import opened Classify
  import opened Trend
  import LineParser
  import EnvSettings

  const NOTIFY_COOLDOWN_SEC: real := 60.0     // TELEGRAM_MIN_INTERVAL_SEC
  const COMMAND_DEBOUNCE_SEC: real := 10.0
  const RATE_ALERT_COOLDOWN_SEC: real := 60.0
  const LOG_INTERVAL_SEC: real := 3600.0

  /** What a notification says; the message text itself is left to the caller. */
  datatype Notice =
    | RateWarning(alarm: RateAlarm)
    | StatusChanged(status: Status, ntu: real)
    | VeryHigh(ntu: real)
    | RisingTrend

  /** One outbound action: a Telegram request, a byte written to the Arduino, or a row
      written to the database. */
  datatype Event =
    | Notification(at: real, notice: Notice, delivered: bool)
    | Command(at: real, cmd: char, written: bool)
    | Logged(at: real, voltage: real, ntu: real, status: Status)

  /** Whether each outbound call that one update may make succeeds. */
  datatype Outcomes = Outcomes(
    rateSent: bool, statusSent: bool, alarmWritten: bool, veryHighSent: bool,
    resetWritten: bool, trendSent: bool, trendWritten: bool)

  /** The fields of `TurbiditySensorGUI` that the monitoring logic reads and writes.
      `lastSample` holds `last_voltage` and `last_turbidity`, which are always set
      together. */
  datatype MonitorState = MonitorState(
    portOpen: bool,
    isRunning: bool,
    token: Option<string>,
    chat: Option<string>,
    recent: seq<Reading>,
    chart: seq<real>,
    stamps: seq<string>,
    overlay: Overlay,
    lastLogTime: Option<real>,
    lastSample: Option<LineParser.Sample>,
    alertLevel: nat,
    lastCommandAt: real,
    lastCommand: Option<char>,
    lastNotifyAt: real,
    lastRateAlertAt: real,
    lastStatusSent: Option<Status>,
    events: seq<Event>)

  predicate Configured(st: MonitorState) {
    EnvSettings.Truthy(st.token) && EnvSettings.Truthy(st.chat)
  }

  // ---------------------------------------------------------------------------
  // The outbound gates.

  /** `send_notification`: nothing without both credentials; without `skip` nothing
      within 60 s of the last delivered message; the cooldown restarts only on
      delivery, and a failure goes no further. */
  function Notify(st: MonitorState, n: Notice, skip: bool, now: real, delivered: bool): (r: MonitorState)
    ensures r == st.(events := r.events, lastNotifyAt := r.lastNotifyAt)
  {
    if !Configured(st) then st
    else if !skip && now - st.lastNotifyAt < NOTIFY_COOLDOWN_SEC then st
    else
      st.(events := st.events + [Notification(now, n, delivered)],
          lastNotifyAt := if delivered then now else st.lastNotifyAt)
  }

  predicate NotifyPasses(st: MonitorState, skip: bool, now: real) {
    Configured(st) && (skip || now - st.lastNotifyAt >= NOTIFY_COOLDOWN_SEC)
  }

  /** A request is made exactly when the credentials are there and the cooldown is
      skipped or over; `last_notify_at` moves only to the time of a delivered request;
      nothing else changes. */
  lemma NotifyGate(st: MonitorState, n: Notice, skip: bool, now: real, delivered: bool)
    ensures var r := Notify(st, n, skip, now, delivered);
      && (NotifyPasses(st, skip, now) ==> r.events == st.events + [Notification(now, n, delivered)])
      && (!NotifyPasses(st, skip, now) ==> r.events == st.events)
      && (r.lastNotifyAt != st.lastNotifyAt ==> NotifyPasses(st, skip, now) && delivered && r.lastNotifyAt == now)
      && (NotifyPasses(st, skip, now) && delivered ==> r.lastNotifyAt == now)
      && r.(events := st.events, lastNotifyAt := st.lastNotifyAt) == st
  {
  }

  /** `send_serial_command`: a byte is written only with the port open and when the
      command differs from the last one written or 10 s have passed since it. */
  function SendCommand(st: MonitorState, cmd: char, now: real, written: bool): (r: MonitorState)
    ensures r == st.(events := r.events, lastCommand := r.lastCommand, lastCommandAt := r.lastCommandAt)
  {
    if st.portOpen && (st.lastCommand != Some(cmd) || now - st.lastCommandAt >= COMMAND_DEBOUNCE_SEC) then
      st.(events := st.events + [Command(now, cmd, written)],
          lastCommand := if written then Some(cmd) else st.lastCommand,
          lastCommandAt := if written then now else st.lastCommandAt)
    else st
  }

  predicate CommandPasses(st: MonitorState, cmd: char, now: real) {
    st.portOpen && (st.lastCommand != Some(cmd) || now - st.lastCommandAt >= COMMAND_DEBOUNCE_SEC)
  }

  /** A write is attempted exactly when the gate passes; the debounce fields move only
      after a successful write, to that command and that time. */
  lemma CommandGate(st: MonitorState, cmd: char, now: real, written: bool)
    ensures var r := SendCommand(st, cmd, now, written);
      && (CommandPasses(st, cmd, now) ==> r.events == st.events + [Command(now, cmd, written)])
      && (!CommandPasses(st, cmd, now) ==> r.events == st.events)
      && (CommandPasses(st, cmd, now) && written ==> r.lastCommand == Some(cmd) && r.lastCommandAt == now)
      && (!(CommandPasses(st, cmd, now) && written) ==>
            r.lastCommand == st.lastCommand && r.lastCommandAt == st.lastCommandAt)
      && r.(events := st.events, lastCommand := st.lastCommand, lastCommandAt := st.lastCommandAt) == st
  {
  }

  /** The same command is never written twice within 10 s. */
  lemma CommandDebounced(st: MonitorState, cmd: char, now: real, later: real, w1: bool, w2: bool)
    requires now <= later < now + COMMAND_DEBOUNCE_SEC
    ensures var s1 := SendCommand(st, cmd, now, w1);
      CommandPasses(st, cmd, now) && w1 ==> SendCommand(s1, cmd, later, w2).events == s1.events
  {
  }

  // ---------------------------------------------------------------------------
  // The steps of `_update`, in the order the source takes them.

  function RecordSample(st: MonitorState, now: real, ntu: real): MonitorState {
    st.(recent := LastN(st.recent + [Reading(now, ntu)], RECENT_CAPACITY))
  }

  /** The short-window rate alert, given the result of the rate test on the current
      samples; its own cooldown is taken before the request. */
  function RateStep(st: MonitorState, rate: Option<RateAlarm>, now: real, sent: bool): (r: MonitorState)
    ensures r == st.(events := r.events, lastNotifyAt := r.lastNotifyAt, lastRateAlertAt := r.lastRateAlertAt)
  {
    if rate.Some? && now - st.lastRateAlertAt >= RATE_ALERT_COOLDOWN_SEC then
      Notify(st.(lastRateAlertAt := now), RateWarning(rate.value), true, now, sent)
    else st
  }

  /** The label edge: a label different from the last one announced is announced,
      skipping the cooldown, and recorded whatever the outcome. */
  function StatusStep(st: MonitorState, ntu: real, now: real, sent: bool): (r: MonitorState)
    ensures r == st.(events := r.events, lastNotifyAt := r.lastNotifyAt, lastStatusSent := r.lastStatusSent)
  {
    var status := StatusOf(ntu);
    if st.lastStatusSent != Some(status) then
      Notify(st, StatusChanged(status, ntu), true, now, sent).(lastStatusSent := Some(status))
    else st
  }

  /** The level after a reading at `level` when the current one is `current`. */
  function NextLevel(current: nat, level: nat): nat {
    if level > current then level
    else if level == 0 && current > 0 then 0
    else current
  }

  /** The multi-level alert: rising to a higher level (and on reaching level 3, the
      alarm command and a cooldown-gated message); falling back only at level 0,
      which sends the silence command. */
  function LevelStep(st: MonitorState, ntu: real, now: real, out: Outcomes): (r: MonitorState)
    ensures r == st.(events := r.events, lastNotifyAt := r.lastNotifyAt, alertLevel := r.alertLevel,
                     lastCommand := r.lastCommand, lastCommandAt := r.lastCommandAt)
    ensures r.alertLevel == NextLevel(st.alertLevel, AlertLevel(ntu))
  {
    var level := AlertLevel(ntu);
    if level > st.alertLevel then
      var s1 := st.(alertLevel := level);
      if level >= 3 then
        Notify(SendCommand(s1, 'A', now, out.alarmWritten), VeryHigh(ntu), false, now, out.veryHighSent)
      else s1
    else if level == 0 && st.alertLevel > 0 then
      SendCommand(st.(alertLevel := 0), 'S', now, out.resetWritten)
    else st
  }

  /** The chart lists take the new point and keep their newest 50. */
  function ChartStep(st: MonitorState, ntu: real, stamp: string): MonitorState {
    var chart := st.chart + [ntu];
    var stamps := st.stamps + [stamp];
    if |chart| > CHART_CAPACITY then
      st.(chart := PyTail(chart, CHART_CAPACITY), stamps := PyTail(stamps, CHART_CAPACITY))
    else st.(chart := chart, stamps := stamps)
  }

  function OverlayStep(st: MonitorState, fit: seq<real>): MonitorState {
    st.(overlay := OverlayOf(fit, |st.chart|))
  }

  /** Every sample is written to the database and restarts the hourly log clock. */
  function LogStep(st: MonitorState, voltage: real, ntu: real, now: real): MonitorState {
    st.(events := st.events + [Logged(now, voltage, ntu, StatusOf(ntu))],
        lastSample := Some(LineParser.Sample(voltage, ntu)),
        lastLogTime := Some(now))
  }

  /** A rising trend sends a cooldown-gated message and then the alarm command. */
  function TrendStep(st: MonitorState, rising: bool, now: real, out: Outcomes): (r: MonitorState)
    ensures r == st.(events := r.events, lastNotifyAt := r.lastNotifyAt,
                     lastCommand := r.lastCommand, lastCommandAt := r.lastCommandAt)
  {
    if rising then
      SendCommand(Notify(st, RisingTrend, false, now, out.trendSent), 'A', now, out.trendWritten)
    else st
  }

  /** What `_update` does once the sample is in `recent_samples`, given the results of
      the three analyses of those samples: the rate test, the rolling fit over the
      last five minutes and the rising-trend test. */
  function Respond(s1: MonitorState, voltage: real, ntu: real, now: real, stamp: string, out: Outcomes,
                   rate: Option<RateAlarm>, fit: seq<real>, rising: bool): MonitorState
  {
    var s2 := RateStep(s1, rate, now, out.rateSent);
    var s3 := StatusStep(s2, ntu, now, out.statusSent);
    var s4 := LevelStep(s3, ntu, now, out);
    var s5 := ChartStep(s4, ntu, stamp);
    var s6 := OverlayStep(s5, fit);
    var s7 := LogStep(s6, voltage, ntu, now);
    TrendStep(s7, rising, now, out)
  }

  /** `_update` for one sample. */
  function Update(st: MonitorState, voltage: real, ntu: real, now: real, stamp: string, out: Outcomes): MonitorState {
    var s1 := RecordSample(st, now, ntu);
    Respond(s1, voltage, ntu, now, stamp, out,
            RateCheck(s1.recent, now), TrendFit(s1.recent, now), IsTrendRising(s1.recent, now))
  }

  /** One line read while monitoring: a line the parser rejects is skipped, and nothing
      is read unless the monitor runs on an open port. */
  function ProcessLine(st: MonitorState, line: string, now: real, stamp: string, out: Outcomes): MonitorState {
    if !(st.isRunning && st.portOpen) then st
    else
      match LineParser.ParseSerialLine(line)
      case Ok(s) => Update(st, s.voltageMv, s.turbidity, now, stamp, out)
      case Err(_) => st
  }

  /** `periodic_log`: while running, the last sample is written again once an hour has
      passed since the last write. */
  function HourlyLog(st: MonitorState, now: real): MonitorState {
    if st.isRunning && st.lastSample.Some? && st.lastLogTime.Some?
      && now - st.lastLogTime.value >= LOG_INTERVAL_SEC
    then
      var s := st.lastSample.value;
      st.(events := st.events + [Logged(now, s.voltageMv, s.turbidity, StatusOf(s.turbidity))],
          lastLogTime := Some(now))
    else st
  }

  /** `start_monitoring`: only on an open port, only when not already running; it
      restarts the log clock. */
  function Start(st: MonitorState, now: real): MonitorState {
    if st.portOpen && !st.isRunning then st.(isRunning := true, lastLogTime := Some(now))
    else st
  }

  function Stop(st: MonitorState): MonitorState {
    st.(isRunning := false)
  }

  /** The state `__init__` leaves: fresh fields, then the start that a successful
      connection makes, then the first `periodic_log`. */
  function Initial(portOpen: bool, token: Option<string>, chat: Option<string>, now: real): MonitorState {
    var s0 := MonitorState(portOpen, false, token, chat, [], [], [], Overlay([], []), None, None,
                           0, 0.0, None, 0.0, 0.0, None, []);
    HourlyLog(Start(s0, now), now)
  }

  // ---------------------------------------------------------------------------
  // Properties of one update.

  /** The level rises to any higher level, drops only to 0 and only on a level-0
      reading, and is otherwise kept: a reading of 10 NTU or less clears it, and
      otherwise it is the higher of the old level and the reading's. */
  lemma AlertLevelHysteresis(s1: MonitorState, voltage: real, ntu: real, now: real, stamp: string, out: Outcomes,
                             rate: Option<RateAlarm>, fit: seq<real>, rising: bool)
    ensures var r := Respond(s1, voltage, ntu, now, stamp, out, rate, fit, rising);
      && r.alertLevel == NextLevel(s1.alertLevel, AlertLevel(ntu))
      && (r.alertLevel == 0 <==> ntu <= 10.0)
      && (ntu > 10.0 ==> r.alertLevel == if s1.alertLevel >= AlertLevel(ntu) then s1.alertLevel else AlertLevel(ntu))
      && (r.alertLevel < s1.alertLevel ==> r.alertLevel == 0)
  {
  }

  // ---------------------------------------------------------------------------
  // Which kinds of action each step can add.

  datatype Kind = RateKind | StatusKind | UrgentKind | CommandKind | LogKind

  /** Rate warnings, label announcements, the two cooldown-gated alarms (very high,
      rising trend), serial commands and database rows. */
  function KindOf(e: Event): Kind {
    match e
    case Notification(_, n, _) =>
      (match n
       case RateWarning(_) => RateKind
       case StatusChanged(_, _) => StatusKind
       case VeryHigh(_) => UrgentKind
       case RisingTrend => UrgentKind)
    case Command(_, _, _) => CommandKind
    case Logged(_, _, _, _) => LogKind
  }

  /** `b` is `a` followed by actions of the kinds in `ks` only. */
  predicate AddsOnly(a: seq<Event>, b: seq<Event>, ks: set<Kind>) {
    |a| <= |b| && b[..|a|] == a && forall k | |a| <= k < |b| :: KindOf(b[k]) in ks
  }

  lemma AddsOnlyTrans(a: seq<Event>, b: seq<Event>, c: seq<Event>, k1: set<Kind>, k2: set<Kind>)
    requires AddsOnly(a, b, k1) && AddsOnly(b, c, k2)
    ensures AddsOnly(a, c, k1 + k2)
  {
    assert c[..|a|] == c[..|b|][..|a|];
  }

  lemma AddsOne(a: seq<Event>, e: Event, ks: set<Kind>)
    requires KindOf(e) in ks
    ensures AddsOnly(a, a + [e], ks)
  {
    assert (a + [e])[..|a|] == a;
  }

  lemma AddsNone(a: seq<Event>, ks: set<Kind>)
    ensures AddsOnly(a, a, ks)
  {
  }

  lemma NotifyAdds(st: MonitorState, n: Notice, skip: bool, now: real, delivered: bool)
    ensures AddsOnly(st.events, Notify(st, n, skip, now, delivered).events, {KindOf(Notification(now, n, delivered))})
  {
    if NotifyPasses(st, skip, now) {
      AddsOne(st.events, Notification(now, n, delivered), {KindOf(Notification(now, n, delivered))});
    }
  }

  /** A cooldown-gated message within 60 s of a delivered one adds nothing. */
  lemma NotifyCoolingDown(st: MonitorState, n: Notice, now: real, delivered: bool)
    requires st.lastNotifyAt == now
    ensures Notify(st, n, false, now, delivered) == st
  {
  }

  lemma SendCommandAdds(st: MonitorState, cmd: char, now: real, written: bool)
    ensures AddsOnly(st.events, SendCommand(st, cmd, now, written).events, {CommandKind})
  {
    if CommandPasses(st, cmd, now) {
      AddsOne(st.events, Command(now, cmd, written), {CommandKind});
    }
  }

  lemma RateStepAdds(st: MonitorState, rate: Option<RateAlarm>, now: real, sent: bool)
    ensures AddsOnly(st.events, RateStep(st, rate, now, sent).events, {RateKind})
  {
    if rate.Some? && now - st.lastRateAlertAt >= RATE_ALERT_COOLDOWN_SEC {
      NotifyAdds(st.(lastRateAlertAt := now), RateWarning(rate.value), true, now, sent);
    }
  }

  lemma LevelStepAdds(st: MonitorState, ntu: real, now: real, out: Outcomes)
    ensures AddsOnly(st.events, LevelStep(st, ntu, now, out).events, {CommandKind, UrgentKind})
    ensures st.lastNotifyAt == now ==>
      AddsOnly(st.events, LevelStep(st, ntu, now, out).events, {CommandKind})
      && LevelStep(st, ntu, now, out).lastNotifyAt == now
  {
    var level := AlertLevel(ntu);
    if level > st.alertLevel {
      var s1 := st.(alertLevel := level);
      if level >= 3 {
        var s2 := SendCommand(s1, 'A', now, out.alarmWritten);
        SendCommandAdds(s1, 'A', now, out.alarmWritten);
        NotifyAdds(s2, VeryHigh(ntu), false, now, out.veryHighSent);
        AddsOnlyTrans(st.events, s2.events, Notify(s2, VeryHigh(ntu), false, now, out.veryHighSent).events,
                      {CommandKind}, {UrgentKind});
        if st.lastNotifyAt == now {
          NotifyCoolingDown(s2, VeryHigh(ntu), now, out.veryHighSent);
        }
      }
    } else if level == 0 && st.alertLevel > 0 {
      SendCommandAdds(st.(alertLevel := 0), 'S', now, out.resetWritten);
    }
  }

  lemma TrendStepAdds(st: MonitorState, rising: bool, now: real, out: Outcomes)
    ensures AddsOnly(st.events, TrendStep(st, rising, now, out).events, {CommandKind, UrgentKind})
    ensures st.lastNotifyAt == now ==>
      AddsOnly(st.events, TrendStep(st, rising, now, out).events, {CommandKind})
  {
    if rising {
      var s1 := Notify(st, RisingTrend, false, now, out.trendSent);
      NotifyAdds(st, RisingTrend, false, now, out.trendSent);
      SendCommandAdds(s1, 'A', now, out.trendWritten);
      AddsOnlyTrans(st.events, s1.events, SendCommand(s1, 'A', now, out.trendWritten).events,
                    {UrgentKind}, {CommandKind});
      if st.lastNotifyAt == now {
        NotifyCoolingDown(st, RisingTrend, now, out.trendSent);
      }
    }
  }

  /** After the label step: the level, chart, overlay, log and trend steps add no label
      announcement and no rate warning, and with the cooldown just restarted no
      cooldown-gated message either. */
  lemma AfterStatusAdds(s3: MonitorState, voltage: real, ntu: real, now: real, stamp: string, out: Outcomes,
                        fit: seq<real>, rising: bool)
    ensures var s7 := LogStep(OverlayStep(ChartStep(LevelStep(s3, ntu, now, out), ntu, stamp), fit), voltage, ntu, now);
      var r := TrendStep(s7, rising, now, out);
      && AddsOnly(s3.events, r.events, {CommandKind, UrgentKind, LogKind})
      && (s3.lastNotifyAt == now ==> AddsOnly(s3.events, r.events, {CommandKind, LogKind}))
  {
    var s4 := LevelStep(s3, ntu, now, out);
    var s6 := OverlayStep(ChartStep(s4, ntu, stamp), fit);
    var s7 := LogStep(s6, voltage, ntu, now);
    var r := TrendStep(s7, rising, now, out);
    LevelStepAdds(s3, ntu, now, out);
    AddsOne(s6.events, Logged(now, voltage, ntu, StatusOf(ntu)), {LogKind});
    TrendStepAdds(s7, rising, now, out);
    AddsOnlyTrans(s3.events, s4.events, s7.events, {CommandKind, UrgentKind}, {LogKind});
    AddsOnlyTrans(s3.events, s7.events, r.events, {CommandKind, UrgentKind, LogKind}, {CommandKind, UrgentKind});
    if s3.lastNotifyAt == now {
      AddsOnlyTrans(s3.events, s4.events, s7.events, {CommandKind}, {LogKind});
      AddsOnlyTrans(s3.events, s7.events, r.events, {CommandKind, LogKind}, {CommandKind});
      assert {CommandKind, LogKind} + {CommandKind} == {CommandKind, LogKind};
    }
  }

  /** The actions an update adds after the label step. */
  function AfterStatus(s3: MonitorState, voltage: real, ntu: real, now: real, stamp: string, out: Outcomes,
                       fit: seq<real>, rising: bool): MonitorState
  {
    var s7 := LogStep(OverlayStep(ChartStep(LevelStep(s3, ntu, now, out), ntu, stamp), fit), voltage, ntu, now);
    TrendStep(s7, rising, now, out)
  }

  // ---------------------------------------------------------------------------
  // The label edge and what a delivered label message suppresses.

  /** Each update leaves the new reading's label as the last one announced, whatever
      the outcome of the request; it announces a label (one request, skipping the
      cooldown) exactly when the credentials are set and the label differs from the
      last one announced, and announces nothing else. */
  lemma StatusEdge(s1: MonitorState, voltage: real, ntu: real, now: real, stamp: string, out: Outcomes,
                   rate: Option<RateAlarm>, fit: seq<real>, rising: bool)
    ensures var r := Respond(s1, voltage, ntu, now, stamp, out, rate, fit, rising);
      var status := StatusOf(ntu);
      && r.lastStatusSent == Some(status)
      && AddsOnly(s1.events, r.events, {RateKind, StatusKind, UrgentKind, CommandKind, LogKind})
      && ((Configured(s1) && s1.lastStatusSent != Some(status)) <==>
            exists k | |s1.events| <= k < |r.events| :: KindOf(r.events[k]) == StatusKind)
      && (forall k | |s1.events| <= k < |r.events| && KindOf(r.events[k]) == StatusKind ::
            r.events[k] == Notification(now, StatusChanged(status, ntu), out.statusSent))
  {
    var s2 := RateStep(s1, rate, now, out.rateSent);
    var s3 := StatusStep(s2, ntu, now, out.statusSent);
    var r := AfterStatus(s3, voltage, ntu, now, stamp, out, fit, rising);
    assert r == Respond(s1, voltage, ntu, now, stamp, out, rate, fit, rising);
    RateStepAdds(s1, rate, now, out.rateSent);
    AfterStatusAdds(s3, voltage, ntu, now, stamp, out, fit, rising);
    StatusEdgeThrough(s1.events, s2, s3, r, ntu, now, out.statusSent);
  }

  /** `StatusEdge` over the states the update passes through: the rate step adds only
      rate warnings and keeps the credentials and the last label, and the steps after
      the label step add no announcement and keep the last label. */
  lemma StatusEdgeThrough(e1: seq<Event>, s2: MonitorState, s3: MonitorState, r: MonitorState,
                          ntu: real, now: real, sent: bool)
    requires AddsOnly(e1, s2.events, {RateKind})
    requires s3 == StatusStep(s2, ntu, now, sent)
    requires AddsOnly(s3.events, r.events, {CommandKind, UrgentKind, LogKind})
    requires r.lastStatusSent == s3.lastStatusSent
    ensures r.lastStatusSent == Some(StatusOf(ntu))
    ensures AddsOnly(e1, r.events, {RateKind, StatusKind, UrgentKind, CommandKind, LogKind})
    ensures (Configured(s2) && s2.lastStatusSent != Some(StatusOf(ntu))) <==>
            exists k | |e1| <= k < |r.events| :: KindOf(r.events[k]) == StatusKind
    ensures forall k | |e1| <= k < |r.events| && KindOf(r.events[k]) == StatusKind ::
            r.events[k] == Notification(now, StatusChanged(StatusOf(ntu), ntu), sent)
  {
    StatusAnnouncement(s2, s3, r, ntu, now, sent);
    AddsOnlyTrans(s2.events, s3.events, r.events, {StatusKind}, {CommandKind, UrgentKind, LogKind});
    AddsOnlyTrans(e1, s2.events, r.events, {RateKind}, {StatusKind, CommandKind, UrgentKind, LogKind});
    assert {RateKind} + ({StatusKind} + {CommandKind, UrgentKind, LogKind})
        == {RateKind, StatusKind, UrgentKind, CommandKind, LogKind};
    NoStatusBefore(e1, s2.events, r.events);
  }

  /** The label step adds at most the one announcement, and later steps add none. */
  lemma StatusAnnouncement(s2: MonitorState, s3: MonitorState, r: MonitorState, ntu: real, now: real, sent: bool)
    requires s3 == StatusStep(s2, ntu, now, sent)
    requires AddsOnly(s3.events, r.events, {CommandKind, UrgentKind, LogKind})
    ensures AddsOnly(s2.events, s3.events, {StatusKind})
    ensures ((Configured(s2) && s2.lastStatusSent != Some(StatusOf(ntu))) <==>
              exists k | |s2.events| <= k < |r.events| :: KindOf(r.events[k]) == StatusKind)
    ensures forall k | |s2.events| <= k < |r.events| && KindOf(r.events[k]) == StatusKind ::
              r.events[k] == Notification(now, StatusChanged(StatusOf(ntu), ntu), sent)
  {
    var e := Notification(now, StatusChanged(StatusOf(ntu), ntu), sent);
    if Configured(s2) && s2.lastStatusSent != Some(StatusOf(ntu)) {
      assert s3.events == s2.events + [e];
      AddsOne(s2.events, e, {StatusKind});
      assert r.events[|s2.events|] == s3.events[|s2.events|];
    } else {
      assert s3.events == s2.events;
    }
  }

  lemma NoStatusBefore(a: seq<Event>, b: seq<Event>, c: seq<Event>)
    requires AddsOnly(a, b, {RateKind}) && |b| <= |c| && c[..|b|] == b
    ensures forall k | |a| <= k < |b| :: KindOf(c[k]) != StatusKind
  {
    forall k | |a| <= k < |b|
      ensures KindOf(c[k]) != StatusKind
    {
      assert c[k] == c[..|b|][k];
    }
  }

  /** When the label turns "very cloudy" with the credentials set and that message is
      delivered, the cooldown it restarts drops the level-3 message and the
      rising-trend message of the same update. */
  lemma StatusMessageSuppressesAlarms(s1: MonitorState, voltage: real, ntu: real, now: real, stamp: string,
                                      out: Outcomes, rate: Option<RateAlarm>, fit: seq<real>, rising: bool)
    requires Configured(s1) && ntu > 100.0 && s1.lastStatusSent != Some(VeryCloudy) && out.statusSent
    ensures var r := Respond(s1, voltage, ntu, now, stamp, out, rate, fit, rising);
      && Notification(now, StatusChanged(VeryCloudy, ntu), true) in r.events
      && forall k | |s1.events| <= k < |r.events| :: KindOf(r.events[k]) != UrgentKind
  {
    var r := Respond(s1, voltage, ntu, now, stamp, out, rate, fit, rising);
    StatusEdge(s1, voltage, ntu, now, stamp, out, rate, fit, rising);
    var k :| |s1.events| <= k < |r.events| && KindOf(r.events[k]) == StatusKind;
    assert r.events[k] in r.events;
    NoUrgentAfterDeliveredLabel(s1, voltage, ntu, now, stamp, out, rate, fit, rising);
  }

  lemma NoUrgentAfterDeliveredLabel(s1: MonitorState, voltage: real, ntu: real, now: real, stamp: string,
                                    out: Outcomes, rate: Option<RateAlarm>, fit: seq<real>, rising: bool)
    requires Configured(s1) && s1.lastStatusSent != Some(StatusOf(ntu)) && out.statusSent
    ensures var r := Respond(s1, voltage, ntu, now, stamp, out, rate, fit, rising);
      forall k | |s1.events| <= k < |r.events| :: KindOf(r.events[k]) != UrgentKind
  {
    var s2 := RateStep(s1, rate, now, out.rateSent);
    var s3 := StatusStep(s2, ntu, now, out.statusSent);
    var r := AfterStatus(s3, voltage, ntu, now, stamp, out, fit, rising);
    assert r == Respond(s1, voltage, ntu, now, stamp, out, rate, fit, rising);
    RateStepAdds(s1, rate, now, out.rateSent);
    assert s3.lastNotifyAt == now;
    AfterStatusAdds(s3, voltage, ntu, now, stamp, out, fit, rising);
    StatusAnnouncement(s2, s3, r, ntu, now, out.statusSent);
    AddsOnlyTrans(s2.events, s3.events, r.events, {StatusKind}, {CommandKind, LogKind});
    AddsOnlyTrans(s1.events, s2.events, r.events, {RateKind}, {StatusKind, CommandKind, LogKind});
  }

  // ---------------------------------------------------------------------------
  // Commands requested by the level and trend steps.

  /** Entering level 3 requests the alarm byte 'A': it is written (or its write
      attempted) whenever the debounce gate lets it through. */
  lemma AlarmOnVeryHigh(s1: MonitorState, voltage: real, ntu: real, now: real, stamp: string, out: Outcomes,
                        rate: Option<RateAlarm>, fit: seq<real>, rising: bool)
    requires ntu > 100.0 && s1.alertLevel < 3 && CommandPasses(s1, 'A', now)
    ensures Command(now, 'A', out.alarmWritten) in Respond(s1, voltage, ntu, now, stamp, out, rate, fit, rising).events
  {
    var s3 := StatusStep(RateStep(s1, rate, now, out.rateSent), ntu, now, out.statusSent);
    var s4 := LevelStep(s3, ntu, now, out);
    var sa := SendCommand(s3.(alertLevel := 3), 'A', now, out.alarmWritten);
    assert Command(now, 'A', out.alarmWritten) in sa.events;
    NotifyAdds(sa, VeryHigh(ntu), false, now, out.veryHighSent);
    assert sa.events == s4.events[..|sa.events|];
    LaterStepsKeep(s4, s3, voltage, ntu, now, stamp, out, rate, fit, rising, Command(now, 'A', out.alarmWritten));
  }

  /** Dropping back to level 0 requests the silence byte 'S' under the same gate. */
  lemma SilenceOnClear(s1: MonitorState, voltage: real, ntu: real, now: real, stamp: string, out: Outcomes,
                       rate: Option<RateAlarm>, fit: seq<real>, rising: bool)
    requires ntu <= 10.0 && s1.alertLevel > 0 && CommandPasses(s1, 'S', now)
    ensures Command(now, 'S', out.resetWritten) in Respond(s1, voltage, ntu, now, stamp, out, rate, fit, rising).events
  {
    var s3 := StatusStep(RateStep(s1, rate, now, out.rateSent), ntu, now, out.statusSent);
    var s4 := LevelStep(s3, ntu, now, out);
    assert Command(now, 'S', out.resetWritten) in s4.events;
    LaterStepsKeep(s4, s3, voltage, ntu, now, stamp, out, rate, fit, rising, Command(now, 'S', out.resetWritten));
  }

  /** An action taken by the level step is still there at the end of the update. */
  lemma LaterStepsKeep(s4: MonitorState, s3: MonitorState, voltage: real, ntu: real, now: real, stamp: string,
                       out: Outcomes, rate: Option<RateAlarm>, fit: seq<real>, rising: bool, e: Event)
    requires s4 == LevelStep(s3, ntu, now, out) && e in s4.events
    ensures var s7 := LogStep(OverlayStep(ChartStep(s4, ntu, stamp), fit), voltage, ntu, now);
      e in TrendStep(s7, rising, now, out).events
  {
    var s7 := LogStep(OverlayStep(ChartStep(s4, ntu, stamp), fit), voltage, ntu, now);
    var r := TrendStep(s7, rising, now, out);
    TrendStepAdds(s7, rising, now, out);
    assert s4.events == s7.events[..|s4.events|];
    assert s7.events == r.events[..|s7.events|];
    var k :| 0 <= k < |s4.events| && s4.events[k] == e;
    assert r.events[k] == e;
  }

  /** A rising trend sends its message (cooldown-gated) and then requests 'A' under the
      debounce gate, which the message does not affect. */
  lemma RisingTrendSoundsAlarm(st: MonitorState, now: real, out: Outcomes)
    ensures var r := TrendStep(st, true, now, out);
      CommandPasses(st, 'A', now) <==>
        |r.events| > 0 && r.events[|r.events| - 1] == Command(now, 'A', out.trendWritten)
        && |r.events| > |st.events|
  {
    var s1 := Notify(st, RisingTrend, false, now, out.trendSent);
    NotifyAdds(st, RisingTrend, false, now, out.trendSent);
    if !CommandPasses(st, 'A', now) {
      assert TrendStep(st, true, now, out) == s1;
      if |s1.events| > |st.events| {
        assert s1.events[|s1.events| - 1].Notification?;
      }
    }
  }

  // ---------------------------------------------------------------------------
  // The rate alert cooldown.

  /** Every rate warning requested so far was at or before `last`, and any two of them
      are at least the cooldown apart. */
  predicate RateAlertsSpaced(es: seq<Event>, last: real) {
    && (forall k | 0 <= k < |es| && KindOf(es[k]) == RateKind :: es[k].at <= last)
    && (forall i, j | 0 <= i < j < |es| && KindOf(es[i]) == RateKind && KindOf(es[j]) == RateKind ::
          es[j].at - es[i].at >= RATE_ALERT_COOLDOWN_SEC)
  }

  lemma SpacedAfterOthers(a: seq<Event>, b: seq<Event>, last: real, ks: set<Kind>)
    requires RateAlertsSpaced(a, last) && AddsOnly(a, b, ks) && RateKind !in ks
    ensures RateAlertsSpaced(b, last)
  {
    forall k | 0 <= k < |a|
      ensures b[k] == a[k]
    {
      assert b[k] == b[..|a|][k];
    }
  }

  lemma SpacedNewAlert(a: seq<Event>, b: seq<Event>, last: real, now: real)
    requires RateAlertsSpaced(a, last) && now - last >= RATE_ALERT_COOLDOWN_SEC
    requires AddsOnly(a, b, {RateKind}) && |b| <= |a| + 1
    requires |b| == |a| + 1 ==> b[|a|].at == now
    ensures RateAlertsSpaced(b, now)
  {
    forall k | 0 <= k < |a|
      ensures b[k] == a[k]
    {
      assert b[k] == b[..|a|][k];
    }
  }

  /** The rate step keeps the warnings a cooldown apart: a new one is requested only a
      full cooldown after the last one was due, and the cooldown restarts then even
      when no request can be made. */
  lemma RateStepSpaced(st: MonitorState, rate: Option<RateAlarm>, now: real, sent: bool)
    requires RateAlertsSpaced(st.events, st.lastRateAlertAt)
    ensures var r := RateStep(st, rate, now, sent);
      RateAlertsSpaced(r.events, r.lastRateAlertAt)
  {
    RateStepAdds(st, rate, now, sent);
    if rate.Some? && now - st.lastRateAlertAt >= RATE_ALERT_COOLDOWN_SEC {
      var r := RateStep(st, rate, now, sent);
      SpacedNewAlert(st.events, r.events, st.lastRateAlertAt, now);
    }
  }

  lemma RespondSpaced(s1: MonitorState, voltage: real, ntu: real, now: real, stamp: string, out: Outcomes,
                      rate: Option<RateAlarm>, fit: seq<real>, rising: bool)
    requires RateAlertsSpaced(s1.events, s1.lastRateAlertAt)
    ensures var r := Respond(s1, voltage, ntu, now, stamp, out, rate, fit, rising);
      RateAlertsSpaced(r.events, r.lastRateAlertAt)
  {
    var s2 := RateStep(s1, rate, now, out.rateSent);
    var s3 := StatusStep(s2, ntu, now, out.statusSent);
    var r := AfterStatus(s3, voltage, ntu, now, stamp, out, fit, rising);
    assert r == Respond(s1, voltage, ntu, now, stamp, out, rate, fit, rising);
    RateStepSpaced(s1, rate, now, out.rateSent);
    AfterStatusAdds(s3, voltage, ntu, now, stamp, out, fit, rising);
    StatusAnnouncement(s2, s3, r, ntu, now, out.statusSent);
    SpacedAfterOthers(s2.events, s3.events, s2.lastRateAlertAt, {StatusKind});
    SpacedAfterOthers(s3.events, r.events, s2.lastRateAlertAt, {CommandKind, UrgentKind, LogKind});
  }

  /** The rate test fired and the rate alert's own cooldown is over. */
  predicate RateDue(st: MonitorState, rate: Option<RateAlarm>, now: real) {
    rate.Some? && now - st.lastRateAlertAt >= RATE_ALERT_COOLDOWN_SEC
  }

  /** The rate step requests a warning (skipping the shared cooldown) exactly when it
      is due and the credentials are set, and it restarts its own cooldown whenever it
      is due, whether or not a request is made or delivered. */
  lemma RateStepGate(st: MonitorState, rate: Option<RateAlarm>, now: real, sent: bool)
    ensures var r := RateStep(st, rate, now, sent);
      && (RateDue(st, rate, now) && Configured(st) ==>
            r.events == st.events + [Notification(now, RateWarning(rate.value), sent)])
      && (!(RateDue(st, rate, now) && Configured(st)) ==> r.events == st.events)
      && r.lastRateAlertAt == (if RateDue(st, rate, now) then now else st.lastRateAlertAt)
  {
  }

  /** Over a whole update the rate warning is the only one of its kind, it comes
      first, and `last_rate_alert_at` is what the rate step left. */
  lemma RespondRateWarning(s1: MonitorState, voltage: real, ntu: real, now: real, stamp: string, out: Outcomes,
                           rate: Option<RateAlarm>, fit: seq<real>, rising: bool)
    ensures var r := Respond(s1, voltage, ntu, now, stamp, out, rate, fit, rising);
      && r.lastRateAlertAt == (if RateDue(s1, rate, now) then now else s1.lastRateAlertAt)
      && ((exists k | |s1.events| <= k < |r.events| :: KindOf(r.events[k]) == RateKind) <==>
            RateDue(s1, rate, now) && Configured(s1))
      && (RateDue(s1, rate, now) && Configured(s1) ==>
            |s1.events| < |r.events| &&
            r.events[|s1.events|] == Notification(now, RateWarning(rate.value), out.rateSent))
  {
    var s2 := RateStep(s1, rate, now, out.rateSent);
    var s3 := StatusStep(s2, ntu, now, out.statusSent);
    var r := AfterStatus(s3, voltage, ntu, now, stamp, out, fit, rising);
    assert r == Respond(s1, voltage, ntu, now, stamp, out, rate, fit, rising);
    RateStepGate(s1, rate, now, out.rateSent);
    AfterStatusAdds(s3, voltage, ntu, now, stamp, out, fit, rising);
    StatusAnnouncement(s2, s3, r, ntu, now, out.statusSent);
    AddsOnlyTrans(s2.events, s3.events, r.events, {StatusKind}, {CommandKind, UrgentKind, LogKind});
    var alarm := if rate.Some? then rate.value else RateAlarm(0.0, 0.0, 0.0);
    RateWarningThrough(s1.events, s2.events, r.events, Notification(now, RateWarning(alarm), out.rateSent),
                       RateDue(s1, rate, now) && Configured(s1));
  }

  /** The events of an update when the rate step either added `e` (`added`) or
      nothing, and the later steps added no rate warning. */
  lemma RateWarningThrough(e1: seq<Event>, e2: seq<Event>, er: seq<Event>, e: Event, added: bool)
    requires KindOf(e) == RateKind
    requires added ==> e2 == e1 + [e]
    requires !added ==> e2 == e1
    requires AddsOnly(e2, er, {StatusKind} + {CommandKind, UrgentKind, LogKind})
    ensures (exists k | |e1| <= k < |er| :: KindOf(er[k]) == RateKind) <==> added
    ensures added ==> |e1| < |er| && er[|e1|] == e
  {
    if added {
      assert er[|e1|] == er[..|e2|][|e1|];
    } else {
      forall k | |e1| <= k < |er|
        ensures KindOf(er[k]) != RateKind
      {
      }
    }
  }

  /** `_update` sends a rate warning exactly when the credentials are set, the rate
      test on the last minute of samples (with the new one) fires and the rate
      alert's cooldown is over; `last_rate_alert_at` becomes `now` exactly when the
      test fires past its cooldown. `RateCheckGate` says when the test fires. */
  lemma UpdateRateWarning(st: MonitorState, voltage: real, ntu: real, now: real, stamp: string, out: Outcomes)
    ensures var s1 := RecordSample(st, now, ntu);
      var due := RateCheck(s1.recent, now).Some? && now - st.lastRateAlertAt >= RATE_ALERT_COOLDOWN_SEC;
      var r := Update(st, voltage, ntu, now, stamp, out);
      && ((exists k | |st.events| <= k < |r.events| :: KindOf(r.events[k]) == RateKind) <==> due && Configured(st))
      && r.lastRateAlertAt == (if due then now else st.lastRateAlertAt)
  {
    var s1 := RecordSample(st, now, ntu);
    RespondRateWarning(s1, voltage, ntu, now, stamp, out,
                       RateCheck(s1.recent, now), TrendFit(s1.recent, now), IsTrendRising(s1.recent, now));
  }

  // ---------------------------------------------------------------------------
  // Buffers.

  /** `recent_samples` is the newest 120 readings; the chart lists are the newest 50
      points and their time stamps; the overlay sits over the chart. */
  lemma RespondBuffers(s1: MonitorState, voltage: real, ntu: real, now: real, stamp: string, out: Outcomes,
                       rate: Option<RateAlarm>, fit: seq<real>, rising: bool)
    requires |s1.stamps| == |s1.chart|
    ensures var r := Respond(s1, voltage, ntu, now, stamp, out, rate, fit, rising);
      && r.recent == s1.recent
      && r.chart == LastN(s1.chart + [ntu], CHART_CAPACITY)
      && r.stamps == LastN(s1.stamps + [stamp], CHART_CAPACITY)
      && r.overlay == OverlayOf(fit, |r.chart|)
  {
  }

  lemma UpdateBuffers(st: MonitorState, voltage: real, ntu: real, now: real, stamp: string, out: Outcomes)
    requires |st.stamps| == |st.chart|
    ensures var r := Update(st, voltage, ntu, now, stamp, out);
      && r.recent == LastN(st.recent + [Reading(now, ntu)], RECENT_CAPACITY)
      && r.chart == LastN(st.chart + [ntu], CHART_CAPACITY)
      && r.stamps == LastN(st.stamps + [stamp], CHART_CAPACITY)
      && r.overlay == TrendOverlay(r.recent, now, |r.chart|)
  {
    var s1 := RecordSample(st, now, ntu);
    RespondBuffers(s1, voltage, ntu, now, stamp, out,
                   RateCheck(s1.recent, now), TrendFit(s1.recent, now), IsTrendRising(s1.recent, now));
  }

  // ---------------------------------------------------------------------------
  // The hourly log.

  /** While running with a sample, the last sample is written again exactly when an
      hour has passed since the last write; the log clock then restarts. */
  lemma PeriodicLogGate(st: MonitorState, now: real)
    requires Valid(st)
    ensures var r := HourlyLog(st, now);
      && (st.isRunning && st.lastSample.Some? && now - st.lastLogTime.value >= LOG_INTERVAL_SEC ==>
            && r.events == st.events + [Logged(now, st.lastSample.value.voltageMv, st.lastSample.value.turbidity,
                                               StatusOf(st.lastSample.value.turbidity))]
            && r.lastLogTime == Some(now))
      && (!(st.isRunning && st.lastSample.Some? && now - st.lastLogTime.value >= LOG_INTERVAL_SEC) ==> r == st)
  {
  }

  /** Every sample restarts the log clock, so no periodic write follows within the hour
      after a sample. */
  lemma NoPeriodicLogSoonAfterSample(st: MonitorState, voltage: real, ntu: real, now: real, stamp: string,
                                     out: Outcomes, later: real)
    requires later < now + LOG_INTERVAL_SEC
    ensures var r := Update(st, voltage, ntu, now, stamp, out);
      HourlyLog(r, later) == r
  {
    var s1 := RecordSample(st, now, ntu);
    var r := Update(st, voltage, ntu, now, stamp, out);
    LogClockRestarts(s1, voltage, ntu, now, stamp, out,
                     RateCheck(s1.recent, now), TrendFit(s1.recent, now), IsTrendRising(s1.recent, now));
  }

  lemma LogClockRestarts(s1: MonitorState, voltage: real, ntu: real, now: real, stamp: string, out: Outcomes,
                         rate: Option<RateAlarm>, fit: seq<real>, rising: bool)
    ensures var r := Respond(s1, voltage, ntu, now, stamp, out, rate, fit, rising);
      && r.lastLogTime == Some(now)
      && r.lastSample == Some(LineParser.Sample(voltage, ntu))
      && r.isRunning == s1.isRunning
      && Logged(now, voltage, ntu, StatusOf(ntu)) in r.events
  {
    var s3 := StatusStep(RateStep(s1, rate, now, out.rateSent), ntu, now, out.statusSent);
    var s6 := OverlayStep(ChartStep(LevelStep(s3, ntu, now, out), ntu, stamp), fit);
    var s7 := LogStep(s6, voltage, ntu, now);
    var r := TrendStep(s7, rising, now, out);
    assert r == Respond(s1, voltage, ntu, now, stamp, out, rate, fit, rising);
    TrendStepAdds(s7, rising, now, out);
    assert r.events[|s6.events|] == s7.events[|s6.events|];
  }

  /** Two periodic writes are at least an hour apart. */
  lemma PeriodicLogHourly(st: MonitorState, now: real, later: real)
    requires later < now + LOG_INTERVAL_SEC
    ensures var r := HourlyLog(st, now);
      r != st ==> HourlyLog(r, later) == r
  {
  }

  // ---------------------------------------------------------------------------
  // Reading lines, starting and stopping.

  /** A line the parser rejects changes nothing, and so does any line while the
      monitor is stopped or the port is closed. */
  lemma IgnoredLines(st: MonitorState, line: string, now: real, stamp: string, out: Outcomes)
    ensures LineParser.ParseSerialLine(line).Err? ==> ProcessLine(st, line, now, stamp, out) == st
    ensures !(st.isRunning && st.portOpen) ==> ProcessLine(st, line, now, stamp, out) == st
  {
  }

  /** Starting needs an open port, and only a start that finds the monitor stopped
      restarts the log clock. */
  lemma StartGate(st: MonitorState, now: real)
    ensures Start(st, now).isRunning <==> st.isRunning || st.portOpen
    ensures Start(st, now).lastLogTime != st.lastLogTime ==> !st.isRunning && Start(st, now).lastLogTime == Some(now)
  {
  }

  // ---------------------------------------------------------------------------
  // The state invariant and whole runs.

  /** What holds of the monitor between any two steps: the level is one of the four,
      the buffers are within their bounds, the overlay lies over the newest chart points,
      the log clock is set whenever it is read, and rate warnings are a cooldown apart. */
  predicate Valid(st: MonitorState) {
    && st.alertLevel <= 3
    && |st.recent| <= RECENT_CAPACITY
    && |st.stamps| == |st.chart| <= CHART_CAPACITY
    && |st.overlay.xs| == |st.overlay.ys| <= |st.chart|
    && (forall k | 0 <= k < |st.overlay.xs| :: st.overlay.xs[k] == |st.chart| - |st.overlay.xs| + k)
    && (st.isRunning ==> st.lastLogTime.Some?)
    && (st.lastSample.Some? ==> st.lastLogTime.Some?)
    && RateAlertsSpaced(st.events, st.lastRateAlertAt)
  }

  lemma RespondValid(s1: MonitorState, voltage: real, ntu: real, now: real, stamp: string, out: Outcomes,
                     rate: Option<RateAlarm>, fit: seq<real>, rising: bool)
    requires Valid(s1)
    ensures Valid(Respond(s1, voltage, ntu, now, stamp, out, rate, fit, rising))
  {
    RespondSpaced(s1, voltage, ntu, now, stamp, out, rate, fit, rising);
    RespondBuffers(s1, voltage, ntu, now, stamp, out, rate, fit, rising);
    AlertLevelHysteresis(s1, voltage, ntu, now, stamp, out, rate, fit, rising);
    LogClockRestarts(s1, voltage, ntu, now, stamp, out, rate, fit, rising);
  }

  lemma UpdateValid(st: MonitorState, voltage: real, ntu: real, now: real, stamp: string, out: Outcomes)
    requires Valid(st)
    ensures Valid(Update(st, voltage, ntu, now, stamp, out))
  {
    var s1 := RecordSample(st, now, ntu);
    RespondValid(s1, voltage, ntu, now, stamp, out,
                 RateCheck(s1.recent, now), TrendFit(s1.recent, now), IsTrendRising(s1.recent, now));
  }

  lemma PeriodicLogValid(st: MonitorState, now: real)
    requires Valid(st)
    ensures Valid(HourlyLog(st, now))
  {
    var r := HourlyLog(st, now);
    if r != st {
      var s := st.lastSample.value;
      AddsOne(st.events, Logged(now, s.voltageMv, s.turbidity, StatusOf(s.turbidity)), {LogKind});
      SpacedAfterOthers(st.events, r.events, st.lastRateAlertAt, {LogKind});
    }
  }

  /** What the monitor is given: a line read from the port, the ten-second timer, and
      the Start and Stop buttons. */
  datatype Input =
    | LineRead(line: string, now: real, stamp: string, out: Outcomes)
    | Tick(now: real)
    | StartPressed(now: real)
    | StopPressed

  function Apply(st: MonitorState, i: Input): MonitorState {
    match i
    case LineRead(line, now, stamp, out) => ProcessLine(st, line, now, stamp, out)
    case Tick(now) => HourlyLog(st, now)
    case StartPressed(now) => Start(st, now)
    case StopPressed => Stop(st)
  }

  function Run(st: MonitorState, inputs: seq<Input>): MonitorState
    decreases |inputs|
  {
    if inputs == [] then st else Run(Apply(st, inputs[0]), inputs[1..])
  }

  lemma ApplyValid(st: MonitorState, i: Input)
    requires Valid(st)
    ensures Valid(Apply(st, i))
  {
    match i
    case LineRead(line, now, stamp, out) =>
      var p := LineParser.ParseSerialLine(line);
      if p.Ok? && st.isRunning && st.portOpen {
        UpdateValid(st, p.value.voltageMv, p.value.turbidity, now, stamp, out);
      }
    case Tick(now) => PeriodicLogValid(st, now);
    case StartPressed(now) =>
    case StopPressed =>
  }

  lemma {:induction false} RunValid(st: MonitorState, inputs: seq<Input>)
    requires Valid(st)
    ensures Valid(Run(st, inputs))
    decreases |inputs|
  {
    if inputs != [] {
      ApplyValid(st, inputs[0]);
      RunValid(Apply(st, inputs[0]), inputs[1..]);
    }
  }

  lemma InitialValid(portOpen: bool, token: Option<string>, chat: Option<string>, now: real)
    ensures Valid(Initial(portOpen, token, chat, now))
  {
  }

  /** Whatever lines arrive, whatever the clock says and however the requests fare, a
      monitor started by `__init__` keeps its level in 0..3, holds at most 120 recent
      samples and 50 chart points, and never requested two rate warnings less than a
      minute apart. */
  lemma RunKeepsBounds(portOpen: bool, token: Option<string>, chat: Option<string>, now: real, inputs: seq<Input>)
    ensures var r := Run(Initial(portOpen, token, chat, now), inputs);
      && r.alertLevel <= 3
      && |r.recent| <= RECENT_CAPACITY
      && |r.chart| <= CHART_CAPACITY
      && forall i, j | 0 <= i < j < |r.events| && KindOf(r.events[i]) == RateKind && KindOf(r.events[j]) == RateKind ::
           r.events[j].at - r.events[i].at >= RATE_ALERT_COOLDOWN_SEC
  {
    InitialValid(portOpen, token, chat, now);
    RunValid(Initial(portOpen, token, chat, now), inputs);
  }

  /** `Update` spelled out step by step. */
  lemma UpdateIsRespond(st: MonitorState, voltage: real, ntu: real, now: real, stamp: string, out: Outcomes)
    ensures var s1 := RecordSample(st, now, ntu);
      var s2 := RateStep(s1, RateCheck(s1.recent, now), now, out.rateSent);
      var s3 := StatusStep(s2, ntu, now, out.statusSent);
      var s4 := LevelStep(s3, ntu, now, out);
      var s5 := ChartStep(s4, ntu, stamp);
      var s6 := OverlayStep(s5, TrendFit(s1.recent, now));
      var s7 := LogStep(s6, voltage, ntu, now);
      Update(st, voltage, ntu, now, stamp, out) == TrendStep(s7, IsTrendRising(s1.recent, now), now, out)
  {
  }

  // ---------------------------------------------------------------------------
  // The monitor object.

  /** `TurbiditySensorGUI` without its widgets: its methods update these fields in
      place, each as the matching function above says. */
  class TurbidityMonitor {
    var portOpen: bool
    var isRunning: bool
    var telegramToken: Option<string>
    var telegramChatId: Option<string>
    var recentSamples: seq<Reading>
    var turbidityData: seq<real>
    var timestamps: seq<string>
    var trendLine: Overlay
    var lastLogTime: Option<real>
    var lastSample: Option<LineParser.Sample>
    var currentAlertLevel: nat
    var lastCommandSentAt: real
    var lastCommandType: Option<char>
    var lastNotifyAt: real
    var lastRateAlertAt: real
    var lastStatusSent: Option<Status>
    var events: seq<Event>

    function State(): MonitorState
      reads this
    {
      MonitorState(portOpen, isRunning, telegramToken, telegramChatId, recentSamples, turbidityData,
                   timestamps, trendLine, lastLogTime, lastSample, currentAlertLevel, lastCommandSentAt,
                   lastCommandType, lastNotifyAt, lastRateAlertAt, lastStatusSent, events)
    }

    /** `__init__`: the fields start empty, the credentials are what
        `load_env_settings` reads from the `.env` file's lines with the environment as
        the fallback, a successful connection starts monitoring, and the first
        `periodic_log` runs. */
    constructor (portOpen: bool, file: Option<seq<string>>, envToken: Option<string>,
                 envChat: Option<string>, now: real)
      ensures var lines := if file.Some? then file.value else [];
        State() == Initial(portOpen, EnvSettings.Or(EnvSettings.LastValue(lines, EnvSettings.TOKEN_KEY), envToken),
                           EnvSettings.Or(EnvSettings.LastValue(lines, EnvSettings.CHAT_KEY), envChat), now)
      ensures Valid(State())
    {
      var token, chat := EnvSettings.LoadEnvSettings(file, envToken, envChat);
      this.portOpen := portOpen;
      isRunning := false;
      telegramToken := token;
      telegramChatId := chat;
      recentSamples := [];
      turbidityData := [];
      timestamps := [];
      trendLine := Overlay([], []);
      lastLogTime := None;
      lastSample := None;
      currentAlertLevel := 0;
      lastCommandSentAt := 0.0;
      lastCommandType := None;
      lastNotifyAt := 0.0;
      lastRateAlertAt := 0.0;
      lastStatusSent := None;
      events := [];
      new;
      StartMonitoring(now);
      PeriodicLog(now);
      InitialValid(portOpen, token, chat, now);
    }

    method SendSerialCommand(cmd: char, now: real, written: bool)
      modifies this
      ensures State() == SendCommand(old(State()), cmd, now, written)
    {
      if portOpen && (lastCommandType != Some(cmd) || now - lastCommandSentAt >= COMMAND_DEBOUNCE_SEC) {
        events := events + [Command(now, cmd, written)];
        if written {
          lastCommandType := Some(cmd);
          lastCommandSentAt := now;
        }
      }
    }

    method SendNotification(n: Notice, skipCooldown: bool, now: real, delivered: bool)
      modifies this
      ensures State() == Notify(old(State()), n, skipCooldown, now, delivered)
    {
      if !EnvSettings.Truthy(telegramToken) || !EnvSettings.Truthy(telegramChatId) {
        return;
      }
      if !skipCooldown && now - lastNotifyAt < NOTIFY_COOLDOWN_SEC {
        return;
      }
      events := events + [Notification(now, n, delivered)];
      if delivered {
        lastNotifyAt := now;
      }
    }

    /** The overlay: the rolling fit over the last five minutes, aligned to the chart. */
    method DrawTrendLine(now: real)
      modifies this
      ensures State() == OverlayStep(old(State()), TrendFit(recentSamples, now))
    {
      var window := Since(recentSamples, now - TREND_LINE_WINDOW_SEC);
      var fit: seq<real> := [];
      if |window| >= 2 {
        var ts := Minutes(window, window[0].at);
        fit := RollingFit(ts, Values(window));
      }
      trendLine := OverlayOf(fit, |turbidityData|);
    }

    method RecordReading(now: real, ntu: real)
      modifies this
      ensures State() == RecordSample(old(State()), now, ntu)
    {
      recentSamples := LastN(recentSamples + [Reading(now, ntu)], RECENT_CAPACITY);
    }

    method CheckRate(now: real, sent: bool)
      modifies this
      ensures State() == RateStep(old(State()), RateCheck(old(recentSamples), now), now, sent)
    {
      var rate := RateCheck(recentSamples, now);
      if rate.Some? && now - lastRateAlertAt >= RATE_ALERT_COOLDOWN_SEC {
        lastRateAlertAt := now;
        SendNotification(RateWarning(rate.value), true, now, sent);
      }
    }

    method AnnounceStatus(ntu: real, now: real, sent: bool)
      modifies this
      ensures State() == StatusStep(old(State()), ntu, now, sent)
    {
      var status := StatusOf(ntu);
      if lastStatusSent != Some(status) {
        SendNotification(StatusChanged(status, ntu), true, now, sent);
        lastStatusSent := Some(status);
      }
    }

    method UpdateAlertLevel(ntu: real, now: real, out: Outcomes)
      modifies this
      ensures State() == LevelStep(old(State()), ntu, now, out)
    {
      var level := AlertLevel(ntu);
      if level > currentAlertLevel {
        currentAlertLevel := level;
        if level >= 3 {
          SendSerialCommand('A', now, out.alarmWritten);
          SendNotification(VeryHigh(ntu), false, now, out.veryHighSent);
        }
      } else if level == 0 && currentAlertLevel > 0 {
        currentAlertLevel := 0;
        SendSerialCommand('S', now, out.resetWritten);
      }
    }

    method UpdateChart(ntu: real, stamp: string)
      modifies this
      ensures State() == ChartStep(old(State()), ntu, stamp)
    {
      turbidityData := turbidityData + [ntu];
      timestamps := timestamps + [stamp];
      if |turbidityData| > CHART_CAPACITY {
        turbidityData := PyTail(turbidityData, CHART_CAPACITY);
        timestamps := PyTail(timestamps, CHART_CAPACITY);
      }
    }

    method LogSample(voltage: real, ntu: real, now: real)
      modifies this
      ensures State() == LogStep(old(State()), voltage, ntu, now)
    {
      events := events + [Logged(now, voltage, ntu, StatusOf(ntu))];
      lastSample := Some(LineParser.Sample(voltage, ntu));
      lastLogTime := Some(now);
    }

    method CheckTrend(now: real, out: Outcomes)
      modifies this
      ensures State() == TrendStep(old(State()), IsTrendRising(old(recentSamples), now), now, out)
    {
      if IsTrendRising(recentSamples, now) {
        SendNotification(RisingTrend, false, now, out.trendSent);
        SendSerialCommand('A', now, out.trendWritten);
      }
    }

    /** `_update` for one parsed sample, step by step as the source takes them. */
    method UpdateGui(voltage: real, ntu: real, now: real, stamp: string, out: Outcomes)
      modifies this
      ensures State() == Update(old(State()), voltage, ntu, now, stamp, out)
      ensures Valid(old(State())) ==> Valid(State())
    {
      ghost var s0 := State();
      RecordReading(now, ntu);
      ghost var s1 := State();
      CheckRate(now, out.rateSent);
      ghost var s2 := State();
      AnnounceStatus(ntu, now, out.statusSent);
      UpdateAlertLevel(ntu, now, out);
      UpdateChart(ntu, stamp);
      ghost var s5 := State();
      assert s5.recent == s1.recent;
      DrawTrendLine(now);
      LogSample(voltage, ntu, now);
      ghost var s7 := State();
      assert s7.recent == s1.recent;
      CheckTrend(now, out);
      UpdateIsRespond(s0, voltage, ntu, now, stamp, out);
      if Valid(s0) {
        UpdateValid(s0, voltage, ntu, now, stamp, out);
      }
    }

    /** One iteration of the reading thread, for a line already read and stripped. */
    method ReadLine(line: string, now: real, stamp: string, out: Outcomes)
      modifies this
      ensures State() == ProcessLine(old(State()), line, now, stamp, out)
    {
      if !(isRunning && portOpen) {
        return;
      }
      var parsed := LineParser.ParseSerialLine(line);
      if parsed.Ok? {
        UpdateGui(parsed.value.voltageMv, parsed.value.turbidity, now, stamp, out);
      }
    }

    method PeriodicLog(now: real)
      modifies this
      ensures State() == HourlyLog(old(State()), now)
    {
      if isRunning && lastSample.Some? && lastLogTime.Some? && now - lastLogTime.value >= LOG_INTERVAL_SEC {
        var s := lastSample.value;
        events := events + [Logged(now, s.voltageMv, s.turbidity, StatusOf(s.turbidity))];
        lastLogTime := Some(now);
      }
    }

    method StartMonitoring(now: real)
      modifies this
      ensures State() == Start(old(State()), now)
    {
      if portOpen && !isRunning {
        isRunning := true;
        lastLogTime := Some(now);
      }
    }

    method StopMonitoring()
      modifies this
      ensures State() == Stop(old(State()))
    {
      isRunning := false;
    }
  }
}
