# Turbidity monitor: a Dafny model

The system is a water-turbidity monitor in three programs.

**Firmware (`src/main.cpp`).** An Arduino averages ADC counts into millivolts and turns them into NTU with Arduino's integer `map`. Once a second it prints the line `Vôn:<mV>,Độ đục:<NTU>`. It also answers the one-byte commands `A` and `S`, which drive an alert pin.

**Desktop monitor (`turbidity_sensor_gui.py`).** It does the following:
- parses each serial line
- labels the water and keeps a multi-level alert state
- raises a short-window rate alarm and a rising-trend alarm
- sends cooldown-gated Telegram messages and debounced serial commands
- keeps bounded sample and chart buffers
- draws a rolling least-squares overlay
- logs every sample, plus an hourly periodic log

Its Telegram credentials come from a `.env` file, with the environment as the fallback.

**Mobile dashboard (`app_mobile.py`).** It shows the latest record and filters the history by date and status. It raises a toast when the alert level rises, and refreshes faster for 30 s after a status change.

## How the model is organised

| module | file | models |
|---|---|---|
| `Wrappers` | `wrappers.dfy` | `Option` |
| `Text` | `text.dfy` | Python's `in` and `str.replace`, ASCII digits and whitespace, decimal text |
| `LineParser` | `line_parser.dfy` | `parse_serial_line` |
| `Classify` | `classify.dfy` | `get_water_status_bootstyle` and the alert level |
| `Trend` | `trend.dfy` | rate alarm, `is_trend_rising`, the rolling fit loop, bounded buffers |
| `Monitor` | `monitor.dfy` | the desktop monitor's state |
| `EnvSettings` | `envsettings.dfy` | `load_env_settings` |
| `Dashboard` | `dashboard.dfy` | the dashboard's rules |
| `Firmware` | `firmware.dfy` | `voltageToNTU`, `readSensorVoltage`, `loop()` |
| `Pipeline` | `pipeline.dfy` | the firmware's line read back by the desktop parser |

Some notes on how the modules work:
- **`LineParser`** uses a hand-written scanner for the two regular expressions. The leftmost-match search is proved against per-position matching.
- **`Monitor`** is the `update_gui._update` state machine, the output gates, `periodic_log` and start/stop.
  - The state lives in the class `TurbidityMonitor`. Its methods each prove that their effect is one step function of the previous state.
  - The lemmas are stated about those step functions.
  - Every outbound call becomes an event appended to `events`. Its success is an input: the `Outcomes` record, or a `delivered`/`written` flag.
- **`EnvSettings`** is a loop over the lines, proved against the last-occurrence parse.
- **`Dashboard`** keeps its `st.session_state` in the class `DashboardSession`.
- **`Firmware`** is a `Controller` class for `loop()`.

Time is an input. All `time.time()` reads within one `_update` are taken as one instant `now`.

## Model

| member | source | states |
|---|---|---|
| Text.ReplaceAllUntouched | turbidity_sensor_gui.py:354 | `str.replace` leaves a string without the pattern's first character unchanged |
| Text.ReplaceAllSkipsPrefix | turbidity_sensor_gui.py:354 | a prefix free of the pattern's first character passes through `str.replace` unchanged |
| Text.ReplaceAllAtFront | turbidity_sensor_gui.py:354 | an occurrence at the front is replaced, and scanning resumes after it |
| Text.ReplaceAllOnlyAtFront | turbidity_sensor_gui.py:354 | a single leading occurrence is the only thing replaced |
| Text.SkipSpaces | turbidity_sensor_gui.py:360 | `\s*` consumes exactly the maximal run of whitespace |
| Text.DigitRunEnd | turbidity_sensor_gui.py:360 | `\d*` consumes exactly the maximal run of digits |
| Text.NatToDecimal | src/main.cpp:92 | the printed integer is non-empty digits whose value is the number |
| LineParser.Unsigned | turbidity_sensor_gui.py:360 | a string is in `[-+]?\d*\.?\d+` iff the part after its optional sign is in `\d*\.?\d+` |
| LineParser.NotNumeralBadChar | turbidity_sensor_gui.py:360 | a character other than a digit or point, past the optional sign, rules out a numeral |
| LineParser.NotNumeralTwoPoints | turbidity_sensor_gui.py:360 | a numeral has at most one point |
| LineParser.NotNumeralTrailingPoint | turbidity_sensor_gui.py:360 | a numeral never ends with its point |
| LineParser.NumeralTextIsNumeral | turbidity_sensor_gui.py:360 | the text of every well-formed numeral is in the numeral language |
| LineParser.ScanNumeral | turbidity_sensor_gui.py:360 | a scanned token is a non-empty, well-formed numeral whose text is exactly the scanned slice |
| LineParser.ScanNumeralLongest | turbidity_sensor_gui.py:360 | the scanner takes a numeral, and no longer prefix is one (greedy matching) |
| LineParser.ScanNumeralNone | turbidity_sensor_gui.py:360 | the scanner finds nothing only when no prefix at that index is a numeral |
| LineParser.Search | turbidity_sensor_gui.py:360-361 | `re.search` returns the first index whose attempt matches, or nothing when no index matches |
| LineParser.LeftmostIsUnique | turbidity_sensor_gui.py:360 | there is only one leftmost match and one capture |
| LineParser.SearchFindsLeftmost | turbidity_sensor_gui.py:360-365 | the search returns the leftmost match and its capture |
| LineParser.MatchIsWellFormed | turbidity_sensor_gui.py:363-368 | every capture is a well-formed numeral, so `float()` never fails on it |
| LineParser.ParseNormalized | turbidity_sensor_gui.py:357-358 | the line is refused for missing words exactly when "VOLTAGE" or "TURBIDITY" is absent (case-sensitive) |
| LineParser.ParseSerialLineNeedsTokens | turbidity_sensor_gui.py:354-358 | after the keyword substitution, a line without both words is always refused |
| LineParser.ParseNormalizedAccepts | turbidity_sensor_gui.py:360-378 | an accepted line gives the leftmost TURBIDITY number and the leftmost VOLT(AGE) number after unit normalisation |
| LineParser.ParseNormalizedRejects | turbidity_sensor_gui.py:357-366 | a line is refused iff a word is missing or one of the patterns matches nowhere |
| LineParser.UnitRule | turbidity_sensor_gui.py:372-376 | `v` multiplies by 1000; `mV` keeps the value; no unit with magnitude below 100 multiplies by 1000, otherwise keeps |
| Classify.AlertLevel | turbidity_sensor_gui.py:447-450 | the level is in 0..3; 0 iff NTU ≤ 10; 3 iff NTU > 100 |
| Classify.LevelOf | turbidity_sensor_gui.py:447-450 | each label's level is in 0..3 |
| Classify.StatusBands | turbidity_sensor_gui.py:586-591 | each of the five labels covers exactly its band (<1, ≤10, ≤50, ≤100, >100) |
| Classify.StyleFollowsStatus | turbidity_sensor_gui.py:586-591 | the style is a function of the label; "danger" iff the label is one of the two most turbid |
| Classify.StatusMonotone | turbidity_sensor_gui.py:586-591 | more turbid water never gets a clearer label |
| Classify.AlertLevelMonotone | turbidity_sensor_gui.py:447-450 | the alert level never decreases as turbidity grows |
| Classify.AlertLevelMatchesStatus | turbidity_sensor_gui.py:447-450 | level 0 iff the label is "Nước cất" or "Nước trong"; the level is determined by the label |
| Classify.StatusTextInjective | turbidity_sensor_gui.py:586-591 | the five label texts are distinct |
| Trend.LastN | turbidity_sensor_gui.py:466-470 | a bounded buffer keeps the newest n entries: all of them when there are at most n |
| Trend.LastNAppend | turbidity_sensor_gui.py:406 | appending to the bounded deque equals appending to the whole history and keeping the newest n |
| Trend.Since | turbidity_sensor_gui.py:412 | the window holds exactly the samples no older than the cutoff |
| Trend.SinceConcat | turbidity_sensor_gui.py:412 | the window comprehension keeps sample order |
| Trend.SinceIsSuffix | turbidity_sensor_gui.py:412 | on time-ordered samples the window is a suffix (the newest samples) |
| Trend.SinceKeepsAll | turbidity_sensor_gui.py:412 | when every sample is recent the window is the whole buffer |
| Trend.Minutes | turbidity_sensor_gui.py:415 | one elapsed-minutes value per sample, measured from the window's first sample |
| Trend.Values | turbidity_sensor_gui.py:416 | one turbidity value per sample |
| Trend.MeanOnLine | turbidity_sensor_gui.py:417-418 | for points on a line, the mean point is on the line |
| Trend.SlopeOfLine | turbidity_sensor_gui.py:417-420 | for collinear points the least-squares slope is the line's gradient, or 0 with the 1e-9 floor when there is no spread |
| Trend.SlopeOfMultiple | turbidity_sensor_gui.py:419-420 | cross deviations equal to b times the spread give slope b, or 0 without spread |
| Trend.SumSqDevNonNegative | turbidity_sensor_gui.py:419 | the squared-deviation sum is never negative |
| Trend.SpreadNonZero | turbidity_sensor_gui.py:419 | times that differ at the ends have a positive spread, so the 1e-9 fallback is not used |
| Trend.RateOfGate | turbidity_sensor_gui.py:413-423 | a rate alarm is raised iff there are at least 3 samples, slope ≥ 20 NTU/min and rise ≥ 10 NTU |
| Trend.RateCheckGate | turbidity_sensor_gui.py:410-423 | the rate test on the buffer fires iff the samples of the last 60 s number at least 3, with slope ≥ 20 NTU/min and rise ≥ 10 NTU |
| Trend.RateOfReports | turbidity_sensor_gui.py:420-422 | the alarm reports the window's slope, its rise, and a span of at least 1e-6 minutes |
| Trend.RateOfLine | turbidity_sensor_gui.py:413-423 | on collinear samples the alarm is raised iff the gradient is ≥ 20 and the rise is ≥ 10 |
| Trend.WindowSlopeOfLine | turbidity_sensor_gui.py:414-420 | the window slope of collinear samples with distinct end times is their gradient |
| Trend.IsTrendRisingIff | turbidity_sensor_gui.py:631-643 | rising iff the minute's window has ≥ 2 samples and (last−first) ≥ 30·max(1e-6, dt in minutes): an end-point slope |
| Trend.TrendRisingMeansRise | turbidity_sensor_gui.py:631-643 | a rising trend needs the newest sample to be more turbid than the oldest |
| Trend.RisingOverFreshSamples | turbidity_sensor_gui.py:633-643 | when all samples are from the last minute, the whole buffer is the window |
| Trend.SubTimesEndsAtPoint | turbidity_sensor_gui.py:486-487 | every sub-window contains its own point, as its last entry |
| Trend.SubTimesAligned | turbidity_sensor_gui.py:487-488 | on sorted times the sub-window is the slice ending at the point, so `sub_y` lines up with `sub_t` |
| Trend.AtLeastSortedSuffix | turbidity_sensor_gui.py:487 | on sorted times the comprehension keeps a suffix |
| Trend.Fitted | turbidity_sensor_gui.py:483-498 | `y_fit_series` after n points holds n values |
| Trend.RollingFit | turbidity_sensor_gui.py:483-498 | the loop produces the fitted series: one value per window point |
| Trend.FittedPrefix | turbidity_sensor_gui.py:484-498 | later points never change values already fitted |
| Trend.FitCarriesForward | turbidity_sensor_gui.py:496-498 | a sub-window of one point repeats the previous fitted value, or the reading itself at the first point |
| Trend.FirstFitIsReading | turbidity_sensor_gui.py:498 | the first fitted value is always the first reading |
| Trend.FitFromSubWindow | turbidity_sensor_gui.py:489-495 | with ≥ 2 points, the value is the sub-window's least-squares line evaluated at the point |
| Trend.LineAtOnLine | turbidity_sensor_gui.py:490-495 | the fitted line through collinear points is that line |
| Trend.FitOfLine | turbidity_sensor_gui.py:483-498 | on collinear readings each fitted value with a spread sub-window lies on the line |
| Trend.PyTail | turbidity_sensor_gui.py:503 | Python's `s[-n:]`, including the whole list when n is 0 |
| Trend.Range | turbidity_sensor_gui.py:502 | `list(range(a, b))` |
| Trend.OverlayOf | turbidity_sensor_gui.py:500-505 | the overlay's x indices are the last chart positions, its y values the newest fitted values; it is empty with fewer than 2 points |
| Trend.TrendFitLength | turbidity_sensor_gui.py:476-484 | the fitted series has one value per sample of the five-minute window, or none with fewer than 2 samples |
| Monitor.Notify | turbidity_sensor_gui.py:657-688 | a notification changes only the event log and `last_notify_at` |
| Monitor.NotifyGate | turbidity_sensor_gui.py:657-688 | a message is sent iff credentials exist and it skips or is past the 60 s cooldown; `last_notify_at` moves only on delivery |
| Monitor.NotifyCoolingDown | turbidity_sensor_gui.py:664-665 | a message gated by the cooldown, sent at the same instant as a delivered one, does nothing |
| Monitor.SendCommand | turbidity_sensor_gui.py:645-655 | a command changes only the event log and the last command and its time |
| Monitor.CommandGate | turbidity_sensor_gui.py:645-655 | a byte is written iff the port is open and the command is new or ≥ 10 s old; the last command updates only after a successful write |
| Monitor.CommandDebounced | turbidity_sensor_gui.py:649 | the same command is never written twice within 10 s |
| Monitor.RateStep | turbidity_sensor_gui.py:408-434 | the rate step changes only the event log, `last_notify_at` and `last_rate_alert_at` |
| Monitor.RateStepGate | turbidity_sensor_gui.py:423-430 | a rate warning is requested, skipping the shared cooldown, iff the test fired, 60 s have passed since the last rate alert and the credentials are set; otherwise the log is unchanged; `last_rate_alert_at` becomes now whenever the test fired past its cooldown, with or without credentials or delivery |
| Monitor.RespondRateWarning | turbidity_sensor_gui.py:408-535 | over a whole update a rate warning is added iff the rate step was due and the credentials are set; it is the first new event; `last_rate_alert_at` is what the rate step left |
| Monitor.UpdateRateWarning | turbidity_sensor_gui.py:406-430 | `_update` adds a rate warning iff the credentials are set, the rate test on the buffer with the new sample fires and 60 s have passed since the last rate alert; `last_rate_alert_at` becomes now exactly when the test fires past its cooldown |
| Monitor.StatusStep | turbidity_sensor_gui.py:436-444 | the label step changes only the event log, `last_notify_at` and `last_status_sent` |
| Monitor.LevelStep | turbidity_sensor_gui.py:446-463 | the new level rises to a higher level, resets only on level 0, and is otherwise kept |
| Monitor.TrendStep | turbidity_sensor_gui.py:529-535 | the trend step changes only the events, the notify time and the command state |
| Monitor.AlertLevelHysteresis | turbidity_sensor_gui.py:452-463 | after an update the level is 0 iff NTU ≤ 10, otherwise the higher of the old and new levels; it never drops to a non-zero value |
| Monitor.StatusEdge | turbidity_sensor_gui.py:436-444 | exactly one label message is sent iff credentials exist and the label changed; it carries the label and NTU; `last_status_sent` becomes the label whatever the outcome |
| Monitor.StatusMessageSuppressesAlarms | turbidity_sensor_gui.py:441-458 | when the label becomes "Nước rất đục" and its message is delivered, the level-3 message is dropped by the cooldown |
| Monitor.NoUrgentAfterDeliveredLabel | turbidity_sensor_gui.py:441-533 | after a delivered label message, no cooldown-gated message is logged in that update |
| Monitor.AlarmOnVeryHigh | turbidity_sensor_gui.py:452-457 | entering level 3 requests 'A' when the debounce allows it |
| Monitor.SilenceOnClear | turbidity_sensor_gui.py:459-463 | dropping to level 0 from an alert requests 'S' when the debounce allows it |
| Monitor.RisingTrendSoundsAlarm | turbidity_sensor_gui.py:531-533 | on a rising trend the last event is the 'A' command iff the debounce allows it |
| Monitor.LaterStepsKeep | turbidity_sensor_gui.py:446-535 | actions taken by the level step remain in the log at the end of the update |
| Monitor.RateStepSpaced | turbidity_sensor_gui.py:424-425 | the rate step keeps rate alarms at least 60 s apart |
| Monitor.RespondSpaced | turbidity_sensor_gui.py:408-535 | a whole update keeps rate alarms at least 60 s apart |
| Monitor.RespondBuffers | turbidity_sensor_gui.py:466-503 | the chart and stamp lists keep their newest 50; the overlay is aligned to the chart |
| Monitor.UpdateBuffers | turbidity_sensor_gui.py:406-503 | `recent_samples` keeps the newest 120; the chart keeps 50; the overlay is the trend fit of the new buffer |
| Monitor.PeriodicLogGate | turbidity_sensor_gui.py:541-548 | the periodic log writes the last sample iff running, a sample exists and an hour has passed, and then restarts its clock; otherwise nothing changes |
| Monitor.NoPeriodicLogSoonAfterSample | turbidity_sensor_gui.py:527-544 | within an hour of a sample the periodic log writes nothing, because each sample restarts the clock |
| Monitor.LogClockRestarts | turbidity_sensor_gui.py:522-527 | every sample is logged with its label and becomes the last sample; the log clock restarts |
| Monitor.PeriodicLogHourly | turbidity_sensor_gui.py:544-548 | two periodic writes are at least an hour apart |
| Monitor.IgnoredLines | turbidity_sensor_gui.py:324-341 | a refused line, or a stopped monitor, changes nothing |
| Monitor.StartGate | turbidity_sensor_gui.py:301-314 | monitoring starts only with an open port; starting resets the log clock only when it was not already running |
| Monitor.RespondValid | turbidity_sensor_gui.py:446-470 | an update keeps the invariant: level in 0..3, buffers bounded, rate alarms spaced |
| Monitor.UpdateValid | turbidity_sensor_gui.py:380-535 | `_update` keeps the invariant |
| Monitor.PeriodicLogValid | turbidity_sensor_gui.py:541-548 | the periodic log keeps the invariant |
| Monitor.ApplyValid | turbidity_sensor_gui.py:301-551 | each input (start, stop, line, periodic tick) keeps the invariant |
| Monitor.RunValid | turbidity_sensor_gui.py:301-551 | every sequence of inputs keeps the invariant |
| Monitor.InitialValid | turbidity_sensor_gui.py:95-143 | the initial state meets the invariant |
| Monitor.RunKeepsBounds | turbidity_sensor_gui.py:406-470 | from start-up: level ≤ 3, ≤ 120 recent samples, ≤ 50 chart points, rate alarms ≥ 60 s apart |
| Monitor.UpdateIsRespond | turbidity_sensor_gui.py:406-535 | `_update` is the sequence of steps in source order |
| Monitor.TurbidityMonitor.constructor | turbidity_sensor_gui.py:95-143 | the initial fields; the credentials are the `.env` file's last value for each key, or else the environment's; monitoring started and the first periodic log done; the invariant holds |
| Monitor.TurbidityMonitor.SendSerialCommand | turbidity_sensor_gui.py:645-655 | the new state is the command gate's |
| Monitor.TurbidityMonitor.SendNotification | turbidity_sensor_gui.py:657-688 | the new state is the notification gate's |
| Monitor.TurbidityMonitor.RecordReading | turbidity_sensor_gui.py:406 | appends to the 120-sample deque |
| Monitor.TurbidityMonitor.CheckRate | turbidity_sensor_gui.py:408-434 | the rate step on the current buffer |
| Monitor.TurbidityMonitor.AnnounceStatus | turbidity_sensor_gui.py:436-444 | the label step |
| Monitor.TurbidityMonitor.UpdateAlertLevel | turbidity_sensor_gui.py:446-463 | the level step |
| Monitor.TurbidityMonitor.UpdateChart | turbidity_sensor_gui.py:465-470 | appends and trims the chart lists in place |
| Monitor.TurbidityMonitor.DrawTrendLine | turbidity_sensor_gui.py:474-507 | the overlay from the rolling-fit loop |
| Monitor.TurbidityMonitor.LogSample | turbidity_sensor_gui.py:522-527 | logs the sample and restarts the log clock |
| Monitor.TurbidityMonitor.CheckTrend | turbidity_sensor_gui.py:529-535 | the trend step |
| Monitor.TurbidityMonitor.UpdateGui | turbidity_sensor_gui.py:380-535 | the new state is `Update` of the old one, and the invariant is kept |
| Monitor.TurbidityMonitor.ReadLine | turbidity_sensor_gui.py:323-341 | a line is parsed and, when accepted, shown |
| Monitor.TurbidityMonitor.PeriodicLog | turbidity_sensor_gui.py:541-548 | the hourly log step |
| Monitor.TurbidityMonitor.StartMonitoring | turbidity_sensor_gui.py:301-314 | the start step |
| Monitor.TurbidityMonitor.StopMonitoring | turbidity_sensor_gui.py:316-321 | clears `is_running` |
| EnvSettings.Or | turbidity_sensor_gui.py:575-576 | `a or b`: a when it is a non-empty string, otherwise b |
| EnvSettings.LStripRemovesLeadingRun | turbidity_sensor_gui.py:566-567 | `lstrip` removes exactly the leading run of characters to strip |
| EnvSettings.RStripRemovesTrailingRun | turbidity_sensor_gui.py:566-567 | `rstrip` removes exactly the trailing run |
| EnvSettings.StripCharsClean | turbidity_sensor_gui.py:566-567 | a string with no end character to strip is left as it is |
| EnvSettings.StripCharsTrimmed | turbidity_sensor_gui.py:566-567 | what stripping leaves neither starts nor ends with a character to strip |
| EnvSettings.FirstIndex | turbidity_sensor_gui.py:565 | the index of the first `=` |
| EnvSettings.FirstIndexAfterKey | turbidity_sensor_gui.py:565 | `split('=', 1)` splits at the `=` after a key without one |
| EnvSettings.SkippedLines | turbidity_sensor_gui.py:561-564 | blank lines, `#` comments and lines without `=` set nothing, and only those |
| EnvSettings.SplitAfterKey | turbidity_sensor_gui.py:565-566 | `KEY=rest` with a clean key splits into that key and `rest` |
| EnvSettings.SettingLineRoundTrip | turbidity_sensor_gui.py:561-567 | a line written as `KEY=value` reads back as that key and value |
| EnvSettings.QuotedSettingLineRoundTrip | turbidity_sensor_gui.py:567 | `KEY="value"` reads as `value` |
| EnvSettings.Entries | turbidity_sensor_gui.py:560-567 | one parse result per line |
| EnvSettings.LastValueIsLastOccurrence | turbidity_sensor_gui.py:560-571 | a key reads as the value of its last line; none iff no line sets it |
| EnvSettings.ApplyAllGivesLastValues | turbidity_sensor_gui.py:560-571 | reading the lines in order gives each credential its last value |
| EnvSettings.LoadEnvSettings | turbidity_sensor_gui.py:554-578 | the loop yields token and chat as the file's last value `or` the environment's |
| EnvSettings.LaterLineWins | turbidity_sensor_gui.py:568-571 | a line setting the key overrides every earlier line |
| EnvSettings.OtherLineKeeps | turbidity_sensor_gui.py:568-571 | a line not setting the key leaves its value |
| EnvSettings.FallbackToEnvironment | turbidity_sensor_gui.py:575-576 | an empty or missing file value leaves the environment's value |
| Dashboard.TrackStatus | app_mobile.py:79-85 | only the status and boost change; the latest status is recorded |
| Dashboard.FirstStatusNoBoost | app_mobile.py:80-82 | the first observation records the status with `boost_until = 0`: no boost |
| Dashboard.StatusChangeBoosts | app_mobile.py:83-85 | a later change sets `boost_until = now + 30`; refresh is fast iff within those 30 s |
| Dashboard.SameStatusKeeps | app_mobile.py:83 | an unchanged status changes nothing |
| Dashboard.RefreshMs | app_mobile.py:167-168 | 2000 ms iff `now ≤ boost_until`, else 10000 ms |
| Dashboard.SleepSeconds | app_mobile.py:217 | the sleep is never below 0.5 s nor below the interval, and is one of them |
| Dashboard.Sleeps | app_mobile.py:216-217 | fast and slow refresh sleep 2 s and 10 s |
| Dashboard.SameLevelsAsDesktop | app_mobile.py:171-178 | the dashboard's level equals the desktop's alert level (10/50/100, strict) |
| Dashboard.ToastKindOf | app_mobile.py:184-191 | levels 1, 2 and 3 have their own messages, exactly |
| Dashboard.CheckLevel | app_mobile.py:179-201 | the level check changes only the last level and the toasts |
| Dashboard.ToastOnRise | app_mobile.py:181-199 | one toast iff notifications are on and the level exceeds the last notified level; it names that level |
| Dashboard.LastLevelOverwritten | app_mobile.py:179-201 | with notifications on, the last level becomes the current one; off, it is left |
| Dashboard.ToastsNameTheirLevel | app_mobile.py:190-191 | the generic "safety level changed" message is never shown |
| Dashboard.DropReArmsToast | app_mobile.py:181-201 | 3 → lower → 3 shows the very-turbid toast twice |
| Dashboard.SteadyLevelToastsOnce | app_mobile.py:182 | staying very turbid toasts once |
| Dashboard.FilterMembers | app_mobile.py:157 | a filter keeps exactly the elements that pass |
| Dashboard.FilterConcat | app_mobile.py:157 | a filter keeps the original order |
| Dashboard.FilterAll | app_mobile.py:149 | a filter everything passes changes nothing |
| Dashboard.DateRangeInclusive | app_mobile.py:151-154 | the date range covers whole days, the end day included through 23:59:59 |
| Dashboard.FilterHistoryMembers | app_mobile.py:149-157 | the history keeps exactly the records on the chosen days with a chosen status |
| Dashboard.NoFilterKeepsAll | app_mobile.py:151-157 | an empty status selection, or a range that is not two dates, filters nothing |
| Dashboard.FilterHistoryConcat | app_mobile.py:149-157 | the filters keep record order |
| Dashboard.MinTime | app_mobile.py:118 | the earliest record time |
| Dashboard.MaxTime | app_mobile.py:119 | the latest record time |
| Dashboard.Distinct | app_mobile.py:120 | `unique()`: the same statuses, no duplicates |
| Dashboard.DistinctFirstOrder | app_mobile.py:120 | `unique()` lists the statuses in the order of their first appearance |
| Dashboard.Statuses | app_mobile.py:120 | the status column |
| Dashboard.InitFilters | app_mobile.py:122-127 | only the two filters change, and both are then set |
| Dashboard.DefaultFiltersKeepAll | app_mobile.py:118-157 | the default filters show the whole log |
| Dashboard.ScriptRun | app_mobile.py:61-201 | an empty log leaves the session and refreshes slowly; otherwise the latest status is recorded |
| Dashboard.NextRerun | app_mobile.py:216-217 | a rerun is scheduled iff realtime is on, after at least 0.5 s |
| Dashboard.ChangedStatusRefreshesFast | app_mobile.py:167-168 | a rerun right after a status change refreshes fast |
| Dashboard.FirstRun | app_mobile.py:79-201 | the first run shows the whole log, refreshes slowly, and toasts iff notifications are on and NTU > 10 |
| Dashboard.DashboardSession.constructor | app_mobile.py:20-38 | an empty session |
| Dashboard.DashboardSession.ObserveStatus | app_mobile.py:79-85 | the status-tracking step on `st.session_state` |
| Dashboard.DashboardSession.InitHistoryFilters | app_mobile.py:122-127 | the filter initialisation step |
| Dashboard.DashboardSession.NotifyLevel | app_mobile.py:179-201 | the level-check step |
| Dashboard.DashboardSession.DateFilterChanged | app_mobile.py:53-54 | only the date range changes, to the widget's value |
| Dashboard.DashboardSession.StatusFilterChanged | app_mobile.py:56-57 | only the selection changes, to the widget's value |
| Dashboard.DashboardSession.Rerun | app_mobile.py:61-217 | one script run: the new session, the filtered history and the sleep |
| Firmware.MapCalibrationIsLinear | src/main.cpp:43 | `map(x, 0, 100, 1000, 0)` is `1000 − 10x` in C integer arithmetic |
| Firmware.VoltageToNtu | src/main.cpp:45-46 | the NTU is always in [0, 1000] |
| Firmware.VoltageToNtuFormula | src/main.cpp:38-46 | 0 when v/3600 is in [0.98, 1]; otherwise the clamp of 1000 − 10·trunc(100·v/3600) |
| Firmware.VoltageToNtuNonIncreasing | src/main.cpp:37-48 | a higher voltage never reads as more turbid |
| Firmware.SumOfCountsBounded | src/main.cpp:27-29 | the sum of ten-bit counts is at most 1023 per sample, so the 32-bit sum does not overflow |
| Firmware.ReadSensorVoltage | src/main.cpp:26-34 | the loop's result is the mean count × 5000/1023, within [0, 5000] mV; there is none without samples |
| Firmware.HandleCommand | src/main.cpp:74-83 | 'A' sets the pin HIGH and prints ACK:A; 'S' sets it LOW and prints ACK:S; anything else changes nothing |
| Firmware.ElapsedAcrossWrap | src/main.cpp:85 | the unsigned difference is the true elapsed time across `millis()` wrap-around; a reading is due iff ≥ 1000 ms |
| Firmware.Controller.constructor | src/main.cpp:50-54 | power-up: `lastReading` is 0 and the alert pin is LOW |
| Firmware.Controller.Loop | src/main.cpp:72-112 | a command step, then, only when due, one telemetry line of the averaged voltage and its NTU, with `lastReading` set |
| Pipeline.FixedTwoShape | src/main.cpp:94 | a two-decimal rendering is digits, a point and two digits |
| Pipeline.FirstReplacement | turbidity_sensor_gui.py:354 | replacing "Vôn" in the firmware's line touches only its leading keyword |
| Pipeline.SecondReplacement | turbidity_sensor_gui.py:354 | replacing "Độ đục" gives the normalized line |
| Pipeline.TelemetryNormalizes | src/main.cpp:91-94 | the printed line normalizes to `VOLTAGE:<mV>,TURBIDITY:<w>.<dd>` |
| Pipeline.VoltageMatchesFirst | turbidity_sensor_gui.py:365 | the voltage pattern's leftmost match is at the start, capturing the millivolts and no unit |
| Pipeline.NoTurbidityBefore | turbidity_sensor_gui.py:360 | the turbidity pattern matches nowhere before its keyword |
| Pipeline.TurbidityMatchesAfterVoltage | turbidity_sensor_gui.py:360 | the turbidity pattern matches at its keyword and captures the printed decimal |
| Pipeline.NormalizedHasTokens | turbidity_sensor_gui.py:357 | the normalized line contains both words |
| Pipeline.NormalizedMatches | turbidity_sensor_gui.py:357-365 | both leftmost matches of a normalized telemetry line |
| Pipeline.NormalizedAccepted | turbidity_sensor_gui.py:352-378 | a normalized telemetry line parses to its two numbers |
| Pipeline.LineParsesTo | turbidity_sensor_gui.py:352-378 | a line normalizing to the telemetry shape is accepted with those numbers |
| Pipeline.PrintedValues | src/main.cpp:92-94 | the printed digits stand for the millivolts and the hundredths |
| Pipeline.TelemetryTextAccepted | src/main.cpp:91-94 | the firmware's text is accepted; the voltage is kept when ≥ 100, ×1000 below; the turbidity is the printed hundredths |
| Pipeline.RoundHalfUpError | src/main.cpp:92-94 | two-decimal rounding moves a value by at most half a unit of the last place |
| Pipeline.TelemetryLineRoundTrip | src/main.cpp:91-94 | the emitted line parses back to turbidity within 0.005 and, at ≥ 100 mV, voltage within 0.5 |

## Behaviour of the code worth noting

- **Trend rule.** The long trend rule uses the end-point slope `(last − first) / max(1e-6, minutes)` (turbidity_sensor_gui.py:639-643). It is not a least-squares fit.
- **Voltage keyword.** A line such as `VOLT=2.4V TURBIDITY=5` is refused. The presence test at turbidity_sensor_gui.py:357 needs the literal "VOLTAGE", although the voltage pattern would accept `VOLT`.
- **Periodic log.** The periodic log compares against `last_log_time`, which every sample also updates (turbidity_sensor_gui.py:527). It therefore writes only after an hour without samples, not once an hour.

## Left out

### Interfaces and I/O
- Tkinter/ttkbootstrap widgets, the history window, matplotlib drawing, tick labels and the label/gauge colours: user interface.
- Serial port discovery, the reading thread, `root.after` scheduling and closing: I/O and threading. A run is modelled as a sequence of inputs (start, stop, a stripped line, a periodic tick) applied one at a time.
- Serial reads: a line arrives already decoded and stripped, and empty lines are dropped before the model sees them.
- The SQLite schema and inserts, including the rounding in `log_to_db`: database I/O. A `Logged` event records the values passed in.
- The Telegram request: the URL, `urlencode`, SSL and certifi set-up, and the error hints (turbidity_sensor_gui.py:666-693). Only the gate is kept, with the success flag as an input.
- The exceptions that `send_notification` swallows are covered by that flag.
- `os.environ` syncing (turbidity_sensor_gui.py:579-583, 659-660). The constructor computes the monitor's credentials with the model of `load_env_settings`; writing them back to the environment is not modelled.

### `load_env_settings`
These are given as inputs: splitting the file into lines, the file's existence and read errors, and the environment's values. An unreadable file reads as no file.

### Interpreter semantics
- **Numbers:** unbounded integers and exact reals. There is no IEEE arithmetic, so no rounding in the regression; the `1e-9` and `1e-6` floors are kept as real constants. `float()` of a numeral is its exact decimal value.
- **Formatting:** no `%.0f`/`%.2f` message texts and no `strftime`. The chart time stamp is an input string, and a notice carries its kind and numbers instead of its text.
- **Python regexes:** `\d` and `\s` are modelled as ASCII digits and ASCII whitespace. Python also matches other Unicode digits and spaces.
- **Case-insensitive matching:** ASCII letters, plus the equivalence of `I` with U+0130 and U+0131 for `i`. Other Unicode case folds are not modelled.

### Exception handlers
- The `try/except Exception` around the rate block, the overlay and the trend check (turbidity_sensor_gui.py:409-434, 475-507, 530-535). With exact reals nothing in those blocks raises.
- The overlay's except branch, which clears the line, therefore does not occur.

### Simplifications
- **Sample state:** `last_voltage` and `last_turbidity` are kept as one optional sample, since the source always sets them together.
- **`periodic_log`:** its comparison with a `None` `last_log_time` cannot happen while it is running. The `Valid` invariant excludes that state.
- **Dashboard loading:** Streamlit rendering, JSON/pandas loading, the KPI and gauge values, and the exception captions and state clean-up (app_mobile.py:203-213). The log's records arrive as a sequence.
- **Dashboard records:** a record missing fields (the `.get` defaults at app_mobile.py:73-75) is not modelled; a record has all four fields.
- **Dashboard timestamps:** parsed into whole seconds, with calendar dates taken as day numbers (`time / 86400`). The two `datetime.now()` reads are one `now`.
- **Dashboard date filter:** pandas `.loc` slicing (app_mobile.py:154) is modelled as a range test on each record. None of the three programs writes the log, so the model assumes its records arrive in time order. On a log out of time order, slicing does not reduce to that test: recent pandas raises there, and the script falls into its clean-up handler (app_mobile.py:207-213), which is not modelled.
- **Firmware hardware:** `analogRead`, `delay`, the LCD, `pinMode` and `Serial` are left out. The ADC counts, the command byte and the `millis()` readings are inputs.
- **Firmware `map`:** `Firmware.VoltageToNtu` is defined for every real voltage. On the AVR, `map` multiplies in 32-bit `long`, which overflows for readings above about 2 147 483 mV, and converting an out-of-range float to `long` is undefined. `readSensorVoltage` produces only 0 to 5000 mV, so neither case is reached.
- **Firmware print:** `Serial.print(float, d)` is modelled for non-negative values as rounding half up to d places.
- **`Firmware.ReadSensorVoltage`:** with zero samples the C code divides by zero; the model returns no value there.
- None of the three programs writes `turbidity_log.json`; the dashboard's records are an input.
