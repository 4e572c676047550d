/**
 * The rules of the mobile dashboard (app_mobile.py) that sit around its rendering:
 * the faster refresh for a while after the latest record's status changes, the
 * toast shown when the latest turbidity climbs to a higher alert level, and the
 * date and status filters of the history table. The script's `st.session_state`
 * is the class `DashboardSession`; each rerun of the script is `ScriptRun`.
 */
module Dashboard {
  import opened Wrappers
  import Classify

  const FAST_REFRESH_MS: nat := 2000
  const SLOW_REFRESH_MS: nat := 10000
  const BOOST_DURATION_SEC: real := 30.0
  const MIN_SLEEP_SEC: real := 0.5
  const SECONDS_PER_DAY: int := 86400

  /** One record of the dashboard's input log (no program here writes it; its records
      are taken to be in time order): its time in whole seconds (the log's
      `%Y-%m-%d %H:%M:%S` stamps), turbidity, voltage and status label. */
  datatype Record = Record(time: int, turbidity: real, voltage: real, status: string)

  /** Which message a toast carries; its text also shows the turbidity. */
  datatype ToastKind = SlightlyTurbid | Turbid | VeryTurbid | SafetyChanged

  datatype Toast = Toast(kind: ToastKind, ntu: real)

  /** The keys of `st.session_state` the rules read and write; `None` is a key not
      yet present. `toasts` are the toasts shown so far. */
  datatype Session = Session(
    lastStatus: Option<string>,
    boostUntil: Option<real>,
    lastAlertLevel: Option<nat>,
    dateRange: Option<seq<int>>,
    selectedStatuses: Option<seq<string>>,
    toasts: seq<Toast>)

  const EMPTY_SESSION: Session := Session(None, None, None, None, None, [])

  // ---------------------------------------------------------------------------
  // Refresh boost.

  /** Lines 80-85: the first status seen is recorded without a boost; a status
      different from the recorded one is recorded and boosts until `now + 30`. */
  function TrackStatus(s: Session, current: string, now: real): (r: Session)
    ensures r == s.(lastStatus := r.lastStatus, boostUntil := r.boostUntil)
    ensures r.lastStatus == Some(current)
  {
    var s1 := if s.lastStatus.None? then s.(lastStatus := Some(current), boostUntil := Some(0.0)) else s;
    if s1.lastStatus != Some(current) then s1.(lastStatus := Some(current), boostUntil := Some(now + BOOST_DURATION_SEC))
    else s1
  }

  /** `st.session_state.get('boost_until', 0.0)`. */
  function BoostUntil(s: Session): real {
    if s.boostUntil.Some? then s.boostUntil.value else 0.0
  }

  /** Lines 167-168: the fast interval while the boost lasts, the slow one after. */
  function RefreshMs(s: Session, now: real): (ms: nat)
    ensures ms == FAST_REFRESH_MS <==> now <= BoostUntil(s)
    ensures ms == SLOW_REFRESH_MS <==> now > BoostUntil(s)
  {
    if now <= BoostUntil(s) then FAST_REFRESH_MS else SLOW_REFRESH_MS
  }

  /** Line 217: the pause before the next rerun, in seconds. */
  function SleepSeconds(ms: nat): (sec: real)
    ensures sec >= MIN_SLEEP_SEC
    ensures sec >= ms as real / 1000.0
    ensures sec == MIN_SLEEP_SEC || sec == ms as real / 1000.0
  {
    if ms as real / 1000.0 > MIN_SLEEP_SEC then ms as real / 1000.0 else MIN_SLEEP_SEC
  }

  /** The first status seen records it and gives no boost: from then on, at any time
      after the epoch, the refresh is slow. */
  lemma FirstStatusNoBoost(s: Session, current: string, now: real, later: real)
    requires s.lastStatus.None?
    requires later > 0.0
    ensures TrackStatus(s, current, now).boostUntil == Some(0.0)
    ensures RefreshMs(TrackStatus(s, current, now), later) == SLOW_REFRESH_MS
  {
  }

  /** A status different from the recorded one makes the refresh fast for exactly
      the next 30 seconds. */
  lemma StatusChangeBoosts(s: Session, current: string, now: real, later: real)
    requires s.lastStatus.Some? && s.lastStatus != Some(current)
    ensures TrackStatus(s, current, now).boostUntil == Some(now + BOOST_DURATION_SEC)
    ensures RefreshMs(TrackStatus(s, current, now), later) == FAST_REFRESH_MS
            <==> later <= now + BOOST_DURATION_SEC
  {
  }

  /** The same status again changes nothing. */
  lemma SameStatusKeeps(s: Session, current: string, now: real)
    requires s.lastStatus == Some(current)
    ensures TrackStatus(s, current, now) == s
  {
  }

  /** The two sleeps the script can choose. */
  lemma Sleeps()
    ensures SleepSeconds(FAST_REFRESH_MS) == 2.0
    ensures SleepSeconds(SLOW_REFRESH_MS) == 10.0
  {
  }

  // ---------------------------------------------------------------------------
  // Level toast.

  /** Lines 171-178: the dashboard's alert level of the latest turbidity. */
  function DashboardLevel(turbidity: real): nat {
    if turbidity > 100.0 then 3
    else if turbidity > 50.0 then 2
    else if turbidity > 10.0 then 1
    else 0
  }

  /** The dashboard and the desktop monitor use the same breakpoints. */
  lemma SameLevelsAsDesktop(turbidity: real)
    ensures DashboardLevel(turbidity) == Classify.AlertLevel(turbidity)
  {
  }

  /** Lines 184-191: the message that goes with a level. */
  function ToastKindOf(level: nat): (k: ToastKind)
    ensures k == SlightlyTurbid <==> level == 1
    ensures k == Turbid <==> level == 2
    ensures k == VeryTurbid <==> level == 3
  {
    if level == 1 then SlightlyTurbid
    else if level == 2 then Turbid
    else if level == 3 then VeryTurbid
    else SafetyChanged
  }

  /** `st.session_state['last_alert_level']`, present from the first evaluation. */
  function LastLevel(s: Session): nat {
    if s.lastAlertLevel.Some? then s.lastAlertLevel.value else 0
  }

  /** Lines 179-201: with notifications on, a level above the last one shows a toast
      and the level is recorded whatever it is; with them off nothing is shown and
      the recorded level stays. */
  function CheckLevel(s: Session, turbidity: real, notifyEnabled: bool): (r: Session)
    ensures r == s.(lastAlertLevel := r.lastAlertLevel, toasts := r.toasts)
  {
    var level := DashboardLevel(turbidity);
    var last := LastLevel(s);
    if !notifyEnabled then s.(lastAlertLevel := Some(last))
    else if level > last then
      s.(lastAlertLevel := Some(level), toasts := s.toasts + [Toast(ToastKindOf(level), turbidity)])
    else s.(lastAlertLevel := Some(level))
  }

  /** A toast is shown exactly when notifications are on and the level rose above the
      last one, and it carries the message of the new level. */
  lemma ToastOnRise(s: Session, turbidity: real, notifyEnabled: bool)
    ensures var r := CheckLevel(s, turbidity, notifyEnabled);
      && (notifyEnabled && DashboardLevel(turbidity) > LastLevel(s) <==> |r.toasts| == |s.toasts| + 1)
      && (|r.toasts| == |s.toasts| + 1 ==>
            r.toasts == s.toasts + [Toast(ToastKindOf(DashboardLevel(turbidity)), turbidity)])
      && (|r.toasts| != |s.toasts| + 1 ==> r.toasts == s.toasts)
  {
  }

  /** The last level is overwritten on every evaluation with notifications on, so a
      drop lowers it; with them off it is kept. */
  lemma LastLevelOverwritten(s: Session, turbidity: real, notifyEnabled: bool)
    ensures notifyEnabled ==> LastLevel(CheckLevel(s, turbidity, notifyEnabled)) == DashboardLevel(turbidity)
    ensures !notifyEnabled ==> LastLevel(CheckLevel(s, turbidity, notifyEnabled)) == LastLevel(s)
  {
  }

  /** The levels stay in 0..3, so a shown toast always names its level: the generic
      message is never used. */
  lemma ToastsNameTheirLevel(s: Session, turbidity: real, notifyEnabled: bool)
    requires forall i | 0 <= i < |s.toasts| :: s.toasts[i].kind != SafetyChanged
    ensures var r := CheckLevel(s, turbidity, notifyEnabled);
      forall i | 0 <= i < |r.toasts| :: r.toasts[i].kind != SafetyChanged
  {
  }

  /** Very turbid, then slightly turbid, then very turbid again: the drop re-arms the
      toast, so the second rise shows one more. */
  lemma DropReArmsToast(s: Session, t1: real, t2: real, t3: real)
    requires LastLevel(s) < 3
    requires t1 > 100.0 && t2 <= 100.0 && t3 > 100.0
    ensures var r := CheckLevel(CheckLevel(CheckLevel(s, t1, true), t2, true), t3, true);
      r.toasts == s.toasts + [Toast(VeryTurbid, t1), Toast(VeryTurbid, t3)]
  {
  }

  /** Staying very turbid shows the toast once, not on every rerun. */
  lemma SteadyLevelToastsOnce(s: Session, t1: real, t2: real)
    requires LastLevel(s) < 3
    requires t1 > 100.0 && t2 > 100.0
    ensures var r := CheckLevel(CheckLevel(s, t1, true), t2, true);
      r.toasts == s.toasts + [Toast(VeryTurbid, t1)]
  {
  }

  // ---------------------------------------------------------------------------
  // History filters.

  function Filter<T>(xs: seq<T>, keep: T -> bool): (r: seq<T>)
    ensures |r| <= |xs|
  {
    if xs == [] then [] else
      var r := Filter(xs[..|xs| - 1], keep);
      if keep(xs[|xs| - 1]) then r + [xs[|xs| - 1]] else r
  }

  /** Filtering keeps exactly the elements that pass, ... */
  lemma {:induction false} FilterMembers<T>(xs: seq<T>, keep: T -> bool, x: T)
    ensures x in Filter(xs, keep) <==> x in xs && keep(x)
  {
    if xs != [] {
      FilterMembers(xs[..|xs| - 1], keep, x);
      assert xs == xs[..|xs| - 1] + [xs[|xs| - 1]];
    }
  }

  /** ... in their original order: filtering a concatenation filters each part. */
  lemma {:induction false} FilterConcat<T>(xs: seq<T>, ys: seq<T>, keep: T -> bool)
    ensures Filter(xs + ys, keep) == Filter(xs, keep) + Filter(ys, keep)
  {
    if ys != [] {
      var zs := xs + ys;
      assert zs[..|zs| - 1] == xs + ys[..|ys| - 1];
      assert zs[|zs| - 1] == ys[|ys| - 1];
      FilterConcat(xs, ys[..|ys| - 1], keep);
      var a, b := Filter(xs, keep), Filter(ys[..|ys| - 1], keep);
      assert (a + b) + [ys[|ys| - 1]] == a + (b + [ys[|ys| - 1]]);
    } else {
      assert xs + ys == xs;
    }
  }

  /** A filter everything passes keeps the sequence as it is. */
  lemma {:induction false} FilterAll<T>(xs: seq<T>, keep: T -> bool)
    requires forall i | 0 <= i < |xs| :: keep(xs[i])
    ensures Filter(xs, keep) == xs
  {
    if xs != [] {
      FilterAll(xs[..|xs| - 1], keep);
    }
  }

  /** The day a time falls on. */
  function Day(t: int): int {
    t / SECONDS_PER_DAY
  }

  /** Lines 151-154: a two-day range keeps the records from the start of its first
      day through 23:59:59 of its last; any other range keeps all records. */
  function InDates(range: seq<int>, rec: Record): bool {
    |range| != 2 ||
    (range[0] * SECONDS_PER_DAY <= rec.time <= range[1] * SECONDS_PER_DAY + 86399)
  }

  /** Lines 156-157: a non-empty selection keeps the records with a selected status;
      an empty one keeps all. */
  function InStatuses(selected: seq<string>, rec: Record): bool {
    selected == [] || rec.status in selected
  }

  function FilterHistory(records: seq<Record>, range: seq<int>, selected: seq<string>): seq<Record> {
    Filter(Filter(records, rec => InDates(range, rec)), rec => InStatuses(selected, rec))
  }

  /** The date range is whole days, the last one included. */
  lemma DateRangeInclusive(d0: int, d1: int, rec: Record)
    ensures InDates([d0, d1], rec) <==> d0 <= Day(rec.time) <= d1
  {
  }

  /** The history keeps exactly the records on the chosen days with a chosen status. */
  lemma FilterHistoryMembers(records: seq<Record>, range: seq<int>, selected: seq<string>, rec: Record)
    ensures rec in FilterHistory(records, range, selected) <==>
      rec in records && InDates(range, rec) && InStatuses(selected, rec)
  {
    var byDate := Filter(records, rec => InDates(range, rec));
    FilterMembers(records, rec => InDates(range, rec), rec);
    FilterMembers(byDate, rec => InStatuses(selected, rec), rec);
  }

  /** Neither an empty selection nor a range that is not two days filters anything. */
  lemma NoFilterKeepsAll(records: seq<Record>, range: seq<int>)
    requires |range| != 2
    ensures FilterHistory(records, range, []) == records
  {
    FilterAll(records, rec => InDates(range, rec));
    FilterAll(records, rec => InStatuses([], rec));
  }

  /** The history filters keep the records in their order. */
  lemma FilterHistoryConcat(xs: seq<Record>, ys: seq<Record>, range: seq<int>, selected: seq<string>)
    ensures FilterHistory(xs + ys, range, selected)
         == FilterHistory(xs, range, selected) + FilterHistory(ys, range, selected)
  {
    FilterConcat(xs, ys, rec => InDates(range, rec));
    var a := Filter(xs, rec => InDates(range, rec));
    var b := Filter(ys, rec => InDates(range, rec));
    FilterConcat(a, b, rec => InStatuses(selected, rec));
  }

  // ---------------------------------------------------------------------------
  // Default filters.

  function MinTime(records: seq<Record>): (t: int)
    requires records != []
    ensures forall i | 0 <= i < |records| :: t <= records[i].time
    ensures exists i | 0 <= i < |records| :: t == records[i].time
  {
    if |records| == 1 then records[0].time
    else
      var m := MinTime(records[..|records| - 1]);
      assert forall i | 0 <= i < |records| - 1 :: records[..|records| - 1][i] == records[i];
      if records[|records| - 1].time < m then records[|records| - 1].time else m
  }

  function MaxTime(records: seq<Record>): (t: int)
    requires records != []
    ensures forall i | 0 <= i < |records| :: records[i].time <= t
    ensures exists i | 0 <= i < |records| :: t == records[i].time
  {
    if |records| == 1 then records[0].time
    else
      var m := MaxTime(records[..|records| - 1]);
      assert forall i | 0 <= i < |records| - 1 :: records[..|records| - 1][i] == records[i];
      if records[|records| - 1].time > m then records[|records| - 1].time else m
  }

  /** `df['status'].unique().tolist()`: each status once, in order of first
      appearance. */
  function Distinct(xs: seq<string>): (r: seq<string>)
    ensures forall x :: x in r <==> x in xs
    ensures forall i, j | 0 <= i < j < |r| :: r[i] != r[j]
  {
    if xs == [] then []
    else
      var d := Distinct(xs[..|xs| - 1]);
      assert forall x :: x in xs <==> x in xs[..|xs| - 1] || x == xs[|xs| - 1] by {
        assert xs == xs[..|xs| - 1] + [xs[|xs| - 1]];
      }
      if xs[|xs| - 1] in d then d else d + [xs[|xs| - 1]]
  }

  /** Every occurrence of `b` in `xs` has an occurrence of `a` before it. */
  predicate PrecedesIn(xs: seq<string>, a: string, b: string) {
    forall q | 0 <= q < |xs| && xs[q] == b :: exists p | 0 <= p < q :: xs[p] == a
  }

  /** `Distinct` lists the statuses in the order of their first appearance. */
  lemma {:induction false} DistinctFirstOrder(xs: seq<string>)
    ensures var r := Distinct(xs);
      forall i, j | 0 <= i < j < |r| :: PrecedesIn(xs, r[i], r[j])
  {
    if xs != [] {
      var n := |xs| - 1;
      var ys, last := xs[..n], xs[n];
      var d := Distinct(ys);
      var r := Distinct(xs);
      DistinctFirstOrder(ys);
      assert forall q | 0 <= q < n :: xs[q] == ys[q];
      forall i, j | 0 <= i < j < |r|
        ensures PrecedesIn(xs, r[i], r[j])
      {
        forall q | 0 <= q < |xs| && xs[q] == r[j]
          ensures exists p | 0 <= p < q :: xs[p] == r[i]
        {
          if j < |d| {
            assert r[i] == d[i] && r[j] == d[j];
            assert PrecedesIn(ys, Distinct(ys)[i], Distinct(ys)[j]);
            if q < n {
              assert ys[q] == d[j];
              var p :| 0 <= p < q && ys[p] == d[i];
              assert xs[p] == r[i];
            } else {
              assert d[j] in ys;
              var q' :| 0 <= q' < |ys| && ys[q'] == d[j];
              var p :| 0 <= p < q' && ys[p] == d[i];
              assert xs[p] == r[i];
            }
          } else {
            assert r[j] == last && last !in d && r[i] == d[i];
            assert q == n;
            assert d[i] in ys;
            var p :| 0 <= p < |ys| && ys[p] == d[i];
            assert xs[p] == r[i];
          }
        }
      }
    }
  }

  function Statuses(records: seq<Record>): (ss: seq<string>)
    ensures |ss| == |records|
    ensures forall i | 0 <= i < |records| :: ss[i] == records[i].status
  {
    seq(|records|, i requires 0 <= i < |records| => records[i].status)
  }

  /** Lines 118-127: until the user picks filters, the range is the first through
      the last day of the log and every status that occurs is selected. */
  function InitFilters(s: Session, records: seq<Record>): (r: Session)
    requires records != []
    ensures r == s.(dateRange := r.dateRange, selectedStatuses := r.selectedStatuses)
    ensures r.dateRange.Some? && r.selectedStatuses.Some?
  {
    var range := [Day(MinTime(records)), Day(MaxTime(records))];
    var s1 := if s.dateRange.None? then s.(dateRange := Some(range)) else s;
    if s1.selectedStatuses.None? then s1.(selectedStatuses := Some(Distinct(Statuses(records)))) else s1
  }

  lemma DayMonotone(a: int, b: int)
    requires a <= b
    ensures Day(a) <= Day(b)
  {
    assert Day(a) * SECONDS_PER_DAY <= a <= b < (Day(b) + 1) * SECONDS_PER_DAY;
  }

  /** The default filters show the whole log. */
  lemma DefaultFiltersKeepAll(records: seq<Record>)
    requires records != []
    ensures var r := InitFilters(EMPTY_SESSION, records);
      FilterHistory(records, r.dateRange.value, r.selectedStatuses.value) == records
  {
    var range := [Day(MinTime(records)), Day(MaxTime(records))];
    var selected := Distinct(Statuses(records));
    forall i | 0 <= i < |records|
      ensures InDates(range, records[i])
    {
      DayMonotone(MinTime(records), records[i].time);
      DayMonotone(records[i].time, MaxTime(records));
      DateRangeInclusive(range[0], range[1], records[i]);
    }
    FilterAll(records, rec => InDates(range, rec));
    forall i | 0 <= i < |records|
      ensures InStatuses(selected, records[i])
    {
      assert Statuses(records)[i] == records[i].status;
    }
    FilterAll(records, rec => InStatuses(selected, rec));
  }

  // ---------------------------------------------------------------------------
  // One rerun of the script.

  /** What a rerun shows: the filtered history and the refresh interval. */
  datatype View = View(history: seq<Record>, refreshMs: nat)

  /** Lines 66-201 with a non-empty log, `now` being the clock reading of the rerun;
      an empty log shows nothing and keeps the default slow interval (line 28). */
  function ScriptRun(s: Session, records: seq<Record>, now: real, notifyEnabled: bool): (r: (Session, View))
    ensures records == [] ==> r == (s, View([], SLOW_REFRESH_MS))
    ensures records != [] ==> r.0.lastStatus == Some(records[|records| - 1].status)
  {
    if records == [] then (s, View([], SLOW_REFRESH_MS))
    else
      var latest := records[|records| - 1];
      var s1 := TrackStatus(s, latest.status, now);
      var s2 := InitFilters(s1, records);
      var history := FilterHistory(records, s2.dateRange.value, s2.selectedStatuses.value);
      var ms := RefreshMs(s2, now);
      (CheckLevel(s2, latest.turbidity, notifyEnabled), View(history, ms))
  }

  /** Line 217: a live dashboard sleeps before the next rerun; a paused one does not
      rerun. */
  function NextRerun(view: View, realtime: bool): (sleep: Option<real>)
    ensures realtime <==> sleep.Some?
    ensures sleep.Some? ==> sleep.value >= MIN_SLEEP_SEC
  {
    if realtime then Some(SleepSeconds(view.refreshMs)) else None
  }

  /** A rerun just after the latest record changed status refreshes fast. */
  lemma ChangedStatusRefreshesFast(s: Session, records: seq<Record>, now: real, notifyEnabled: bool)
    requires records != []
    requires s.lastStatus.Some? && s.lastStatus != Some(records[|records| - 1].status)
    ensures ScriptRun(s, records, now, notifyEnabled).1.refreshMs == FAST_REFRESH_MS
  {
  }

  /** A first rerun (the empty session) shows the whole log, refreshes slowly and
      toasts when turbidity is already above 10 NTU and notifications are on. */
  lemma FirstRun(records: seq<Record>, now: real, notifyEnabled: bool)
    requires records != []
    requires now > 0.0
    ensures var (s, view) := ScriptRun(EMPTY_SESSION, records, now, notifyEnabled);
      && view.history == records
      && view.refreshMs == SLOW_REFRESH_MS
      && (|s.toasts| == 1 <==> notifyEnabled && records[|records| - 1].turbidity > 10.0)
  {
    var s1 := TrackStatus(EMPTY_SESSION, records[|records| - 1].status, now);
    assert InitFilters(s1, records).dateRange == InitFilters(EMPTY_SESSION, records).dateRange;
    assert InitFilters(s1, records).selectedStatuses == InitFilters(EMPTY_SESSION, records).selectedStatuses;
    DefaultFiltersKeepAll(records);
  }

  // ---------------------------------------------------------------------------
  // The session as the script mutates it.

  /** `st.session_state`, whose keys the script sets in place. */
  class DashboardSession {
    var lastStatus: Option<string>
    var boostUntil: Option<real>
    var lastAlertLevel: Option<nat>
    var dateRange: Option<seq<int>>
    var selectedStatuses: Option<seq<string>>
    var toasts: seq<Toast>

    function State(): Session
      reads this
    {
      Session(lastStatus, boostUntil, lastAlertLevel, dateRange, selectedStatuses, toasts)
    }

    constructor ()
      ensures State() == EMPTY_SESSION
    {
      lastStatus := None;
      boostUntil := None;
      lastAlertLevel := None;
      dateRange := None;
      selectedStatuses := None;
      toasts := [];
    }

    method ObserveStatus(current: string, now: real)
      modifies this
      ensures State() == TrackStatus(old(State()), current, now)
    {
      if lastStatus.None? {
        lastStatus := Some(current);
        boostUntil := Some(0.0);
      }
      if Some(current) != lastStatus {
        lastStatus := Some(current);
        boostUntil := Some(now + BOOST_DURATION_SEC);
      }
    }

    method InitHistoryFilters(records: seq<Record>)
      requires records != []
      modifies this
      ensures State() == InitFilters(old(State()), records)
    {
      if dateRange.None? {
        dateRange := Some([Day(MinTime(records)), Day(MaxTime(records))]);
      }
      if selectedStatuses.None? {
        selectedStatuses := Some(Distinct(Statuses(records)));
      }
    }

    method NotifyLevel(turbidity: real, notifyEnabled: bool)
      modifies this
      ensures State() == CheckLevel(old(State()), turbidity, notifyEnabled)
    {
      var level := DashboardLevel(turbidity);
      if lastAlertLevel.None? {
        lastAlertLevel := Some(0);
      }
      if notifyEnabled {
        if level > lastAlertLevel.value {
          toasts := toasts + [Toast(ToastKindOf(level), turbidity)];
        }
        lastAlertLevel := Some(level);
      }
    }

    /** `date_filter_changed`: the range picked in the widget. */
    method DateFilterChanged(range: seq<int>)
      modifies this
      ensures State() == old(State()).(dateRange := Some(range))
    {
      dateRange := Some(range);
    }

    /** `status_filter_changed`: the statuses picked in the widget. */
    method StatusFilterChanged(selected: seq<string>)
      modifies this
      ensures State() == old(State()).(selectedStatuses := Some(selected))
    {
      selectedStatuses := Some(selected);
    }

    /** One rerun of the script over the log `records`. */
    method Rerun(records: seq<Record>, now: real, notifyEnabled: bool, realtime: bool)
      returns (history: seq<Record>, sleep: Option<real>)
      modifies this
      ensures var (s, view) := ScriptRun(old(State()), records, now, notifyEnabled);
        State() == s && history == view.history && sleep == NextRerun(view, realtime)
    {
      var refreshMs := SLOW_REFRESH_MS;
      history := [];
      if records != [] {
        var latest := records[|records| - 1];
        ObserveStatus(latest.status, now);
        InitHistoryFilters(records);
        history := FilterHistory(records, dateRange.value, selectedStatuses.value);
        refreshMs := RefreshMs(State(), now);
        NotifyLevel(latest.turbidity, notifyEnabled);
      }
      sleep := if realtime then Some(SleepSeconds(refreshMs)) else None;
    }
  }
}
