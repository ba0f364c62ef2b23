# PauseNow reminder engine, modelled in Dafny

PauseNow is a macOS break reminder. It counts down a work interval, then shows
a full-screen overlay asking for a short *eye break* or, every N-th time, a
longer *standup*. This project models the scheduling core and the small pure
helpers around it, and proves properties about them:

- `Rules` (rule_engine.dfy): the rule engine. It counts the eye breaks completed
  in the current cycle and predicts the next break. The prediction is a standup
  exactly when `(count + 1) mod N == 0`. The lemmas prove that always completing
  the predicted break gives a period-N schedule: N - 1 eye breaks, then one
  standup.
- `Timers` (timer_engine.dfy): the due-date timer, with start, pause, resume and
  reset.
- `SmartMode` (smart_mode_monitor.dfy): the two independent suppression gates,
  fullscreen ("defer") and system sleep.
- `Coordination` (reminder_coordinator.dfy): the stopped / running / paused
  state machine. It owns the rule engine and the timer. It keeps at most one
  overlay in flight. It arms a fresh timer whenever an overlay is resolved.
- `MenuBarDisplay` (menu_bar_display.dfy): the pure state-to-display mapping and
  the `mm:ss` formatter. `CountdownText` delegates to `Format`, which carries
  the contract.
- `Settings` (settings.dfy): the settings value, its defaults and the sanitizer.
- `Overlay` (overlay_view_model.dfy): the overlay's countdown / skip state machine.
- `Records` (record_store.dfy): the append-only log of resolved breaks and its
  per-day counts.
- `ReminderModels` (reminder_models.dfy) and `Wrappers` (wrappers.dfy): shared
  value types, and `Option` for Swift's optionals. `ReminderEvent` is a datatype.
  Its constructor stores exactly the kind and instant it is given.

Modelling choices:

- Time is integer seconds. Every operation that reads the clock takes `now` as
  a parameter.
- Every coordinator operation that reads the settings store takes the stored
  `settings` as a parameter.
- Objects whose fields the Swift code updates in place are classes. The rule
  engine is a Swift struct with `mutating` methods, owned by a single
  coordinator, so it is a class here as well.
- The overlay presenter is modelled by what the coordinator hands to it.
  `presentations` logs every presentation: the break type and its duration.
  `unresolved` lists the breaks whose skip / complete continuation is still
  outstanding. `ResolveSkip(k, now, settings)` and
  `ResolveComplete(k, now, settings)` stand for the presenter invoking those
  continuations for outstanding break `k`.
- `resetSchedule` clears the in-flight flag but cannot withdraw continuations
  already handed out. They therefore stay in `unresolved`.
- The scenario members (for example
  `Coordination.TickPresentsOnceWhenDue`) replay the cases of
  `PauseNowTests/PauseNowTests.swift` against the contracts. Most are
  generalised over the instant and the settings.

Two quirks of the code are kept as written:

- A manual break from stopped rebuilds the engines and moves to running. It
  does not arm the timer, so the due date stays absent until the overlay is
  resolved (`Coordination.ManualBreakFromStopped`).
- A manual break while paused is allowed, and the state stays paused. Its
  resolution arms a fresh timer anyway. A later resume finds no frozen seconds
  and keeps that due date (`Coordination.ManualBreakWhilePaused`).

Further behaviour of the code that is easy to misread:

- A manual break never moves a paused coordinator to running; only a stopped
  one is moved to running.
- After N - 1 completed eye breaks the next break is the standup, not one more
  eye break: `(N - 1 + 1) mod N == 0`. The test suite expects the same.
- The coordinator's timer interval is `max(1, minutes * 60)` seconds, from the
  timer's clamp. The display's full duration is `max(1, minutes) * 60`. The two
  differ when the stored minutes are 0 or less. Stored settings are not
  sanitized on the way in, and both formulas are modelled as written.

## Model

| member | source | states |
|---|---|---|
| `ReminderModels.NewRuleConfig` | PauseNow/Core/ReminderModels.swift:23-25 | the cycle length is at least 1; a requested length of at least 1 is kept; anything at most 0 becomes 1 |
| `ReminderModels.DefaultRuleConfig` | PauseNow/Core/ReminderModels.swift:21 | the default cycle length is 3 |
| `Rules.RuleEngine.constructor` | PauseNow/Core/RuleEngine.swift:7-10 | a fresh engine holds the given config and a completed-eye-break counter of 0 |
| `Rules.RuleEngine.MarkEyeBreakCompleted` | PauseNow/Core/RuleEngine.swift:12-15 | adds `times` to the counter when positive, changes nothing otherwise; config untouched |
| `Rules.RuleEngine.ApplyConfigWithoutReset` | PauseNow/Core/RuleEngine.swift:17-19 | replaces the config and keeps the counter |
| `Rules.RuleEngine.NextEvent` | PauseNow/Core/RuleEngine.swift:21-25 | reads only; the event is due at `now` and is a standup exactly when `(count + 1) mod N == 0` |
| `Rules.RuleEngine.MarkCompleted` | PauseNow/Core/RuleEngine.swift:27-34 | an eye break increments the counter by exactly 1; a standup resets it to 0; config untouched |
| `Rules.CounterAfterIsCyclePosition` | PauseNow/Core/RuleEngine.swift:21-34 | from a counter of 0, after k predicted breaks are completed the counter is `k mod N` |
| `Rules.ScheduleIsPeriodic` | PauseNow/Core/RuleEngine.swift:21-34 | break k of that schedule is a standup exactly when `k mod N == N - 1`, and the schedule repeats with period N |
| `Rules.EveryBreakIsStandupForCycleOne` | PauseNow/Core/RuleEngine.swift:21-34 | with N = 1 every predicted break is a standup |
| `Rules.DefaultCycleScenarios` | PauseNowTests/PauseNowTests.swift:96-122 | with N = 3: two eye breaks done predicts a standup, one done predicts an eye break, and after the standup completes an eye break again |
| `Timers.NewTimerConfig` | PauseNow/Core/TimerEngine.swift:8-10 | the interval is at least 1 second; an interval of at least 1 is kept, anything smaller becomes 1 |
| `Timers.DefaultTimerConfig` | PauseNow/Core/TimerEngine.swift:6 | the default interval is 1200 seconds |
| `Timers.TimerEngine.constructor` | PauseNow/Core/TimerEngine.swift:21-23 | a fresh timer has neither a due date nor frozen seconds |
| `Timers.TimerEngine.Start` | PauseNow/Core/TimerEngine.swift:25-28 | from any state: due date `now + interval`, no frozen seconds |
| `Timers.TimerEngine.Pause` | PauseNow/Core/TimerEngine.swift:30-33 | no due date: nothing changes; otherwise the frozen seconds become `max(0, due - now)` and the due date is kept |
| `Timers.TimerEngine.Resume` | PauseNow/Core/TimerEngine.swift:35-39 | no frozen seconds: nothing changes; otherwise due date `now + frozen` and the frozen seconds are cleared |
| `Timers.TimerEngine.Reset` | PauseNow/Core/TimerEngine.swift:41-44 | clears both the due date and the frozen seconds |
| `Timers.PauseResumeAtSameInstant` | PauseNow/Core/TimerEngine.swift:30-39 | pause then resume at one instant restores the due date exactly when it had not passed, and re-arms an overdue timer at that instant |
| `Timers.DefaultPauseResumeKeepsDueDate` | PauseNowTests/PauseNowTests.swift:124-134 | start, pause and resume at one instant with the default config keeps the due date `now + 1200` |
| `SmartMode.SmartModeMonitor.constructor` | PauseNow/Core/SmartModeMonitor.swift:8-13 | both gates start open; the replay delay is clamped to at least 0 |
| `SmartMode.SmartModeMonitor.SetFullscreen` | PauseNow/Core/SmartModeMonitor.swift:15-17 | sets the defer gate to the argument and leaves the sleep gate unchanged |
| `SmartMode.SmartModeMonitor.SetSystemSleeping` | PauseNow/Core/SmartModeMonitor.swift:19-21 | sets the sleep gate to the argument and leaves the defer gate unchanged |
| `SmartMode.SmartModeMonitor.ScheduledReplayDelay` | PauseNow/Core/SmartModeMonitor.swift:23-25 | returns the replay delay fixed at construction, never negative |
| `SmartMode.SleepWakeScenario` | PauseNowTests/PauseNowTests.swift:154-170 | fullscreen defers; sleeping then waking leaves the sleep gate open again; the delay is the clamped construction value |
| `Coordination.RuleConfigFor` | PauseNow/Core/ReminderCoordinator.swift:183-185 | the cycle length taken from the stored settings: kept when at least 1, otherwise 1 |
| `Coordination.TimerConfigFor` | PauseNow/Core/ReminderCoordinator.swift:187-190 | the interval taken from the stored minutes: minutes times 60 when that is at least 1, otherwise 1 second |
| `Coordination.DurationFor` | PauseNow/Core/ReminderCoordinator.swift:158-159 | the stored eye-break seconds for an eye break and the stored standup seconds for a standup, unclamped |
| `Coordination.ReminderCoordinator.constructor` | PauseNow/Core/ReminderCoordinator.swift:41-56 | stopped, no overlay in flight, engines built from the settings with counter 0 and no due date |
| `Coordination.ReminderCoordinator.NextDueDate` | PauseNow/Core/ReminderCoordinator.swift:58-60 | the timer's due date |
| `Coordination.ReminderCoordinator.Start` | PauseNow/Core/ReminderCoordinator.swift:68-82 | from stopped: fresh engines from the settings, due date `now + interval`, running; from paused: timer resumed at `now`, running; from running: nothing changes |
| `Coordination.ReminderCoordinator.TogglePrimaryAction` | PauseNow/Core/ReminderCoordinator.swift:84-93 | stopped goes to running as `Start`, running to paused as `Pause`, paused to running as `Resume` |
| `Coordination.ReminderCoordinator.Pause` | PauseNow/Core/ReminderCoordinator.swift:95-100 | only from running: the timer is paused at `now` and the state becomes paused; otherwise nothing changes |
| `Coordination.ReminderCoordinator.Resume` | PauseNow/Core/ReminderCoordinator.swift:102-107 | only from paused: the timer is resumed at `now` and the state becomes running; otherwise nothing changes |
| `Coordination.ReminderCoordinator.ProcessTick` | PauseNow/Core/ReminderCoordinator.swift:109-118 | presents the predicted break exactly when running, no overlay is in flight, not asleep, not deferred and `now` has reached the due date; otherwise nothing changes; never touches counter, timer or state |
| `Coordination.ReminderCoordinator.ManualBreakByCycle` | PauseNow/Core/ReminderCoordinator.swift:120-132 | a no-op while an overlay is in flight; from stopped it first builds fresh engines (timer unarmed) and runs; then presents the break the cycle rule predicts; a paused coordinator stays paused |
| `Coordination.ReminderCoordinator.ResetSchedule` | PauseNow/Core/ReminderCoordinator.swift:134-139 | from any state: stopped, no overlay in flight, fresh engines with counter 0 and no due date |
| `Coordination.ReminderCoordinator.ApplySettingsWithoutReset` | PauseNow/Core/ReminderCoordinator.swift:141-143 | replaces only the rule engine's cycle length; counter and due date are unchanged |
| `Coordination.ReminderCoordinator.ResolveSkip` | PauseNow/Core/ReminderCoordinator.swift:165-169 | the counter is not advanced; the overlay guard is cleared and a fresh timer from the current settings is armed at `now + interval`; the state is kept |
| `Coordination.ReminderCoordinator.ResolveComplete` | PauseNow/Core/ReminderCoordinator.swift:170-175 | the counter consumes the presented break type; then as for a skip: guard cleared, fresh timer armed at `now + interval` |
| `Coordination.ReminderCoordinator.Present` | PauseNow/Core/ReminderCoordinator.swift:157-177 | sets the overlay guard and hands the presenter the break with its configured duration |
| `Coordination.ReminderCoordinator.ResetRuntime` | PauseNow/Core/ReminderCoordinator.swift:192-195 | both engines replaced by fresh ones built from the settings |
| `Coordination.ReminderCoordinator.CompleteOverlayAndRestartTimer` | PauseNow/Core/ReminderCoordinator.swift:201-205 | guard cleared, a new timer from the settings armed at `now + interval`, the rule engine kept |
| `Coordination.TickPresentsOnceWhenDue` | PauseNowTests/PauseNowTests.swift:306-334 | start, pause, resume give running, paused, running; a tick before the due date presents nothing, one at the due date presents once, a second one while in flight presents nothing more |
| `Coordination.ToggleCyclesStartPauseResume` | PauseNowTests/PauseNowTests.swift:336-355 | three toggles give running, paused, running |
| `Coordination.ManualBreakFromStopped` | PauseNowTests/PauseNowTests.swift:357-373 | one presentation, an eye break unless N = 1, and the coordinator running with no due date |
| `Coordination.ManualBreaksFollowConfiguredCycle` | PauseNowTests/PauseNowTests.swift:375-396 | with N = 2, two completed manual breaks are an eye break then a standup |
| `Coordination.ResetReturnsToStoppedBaseline` | PauseNowTests/PauseNowTests.swift:398-416 | after start and reset: stopped with no due date |
| `Coordination.CycleChangeWithoutResetKeepsDueDate` | PauseNowTests/PauseNowTests.swift:443-478 | for any starting N of at least 2: changing N to 2 without reset keeps the due date, and the next due tick presents a standup after one completed eye break |
| `Coordination.ManualBreakWhilePaused` | PauseNow/Core/ReminderCoordinator.swift:120-132 | a manual break while paused stays paused, its resolution arms `resolvedAt + interval`, and the later resume keeps that due date |
| `MenuBarDisplay.Decimal` | PauseNow/UI/MenuBar/MenuBarDisplayModels.swift:10 | the decimal digits of n: one digit exactly below 10, at most two exactly below 100; the first digit is 0 exactly for n = 0, so there is no leading zero |
| `MenuBarDisplay.DecimalRoundTrip` | PauseNow/UI/MenuBar/MenuBarDisplayModels.swift:10 | reading the digits back gives n |
| `MenuBarDisplay.Pad2` | PauseNow/UI/MenuBar/MenuBarDisplayModels.swift:10 | `%02d`: at least two digits, exactly two below 100, reading back as n; longer than two digits only without a leading zero |
| `MenuBarDisplay.Format` | PauseNow/UI/MenuBar/MenuBarDisplayModels.swift:8-11 | negatives read as 0; the colon is third from the end; the digits before it read as the whole minutes and the two after it as the seconds; the text is five characters exactly when under 6000 s, and a longer text has no leading zero |
| `MenuBarDisplay.CountdownTextReadsBack` | PauseNow/UI/MenuBar/MenuBarDisplayModels.swift:4-6 | `countdownText` is the formatted text: a colon third from the end, digits on both sides, and minutes times 60 plus seconds equals the remaining seconds (negatives as 0) |
| `MenuBarDisplay.FormatExamples` | PauseNowTests/PauseNowTests.swift:21-33 | 65 gives "01:05", 125 gives "02:05", and 1500, 90 and 75 give "25:00", "01:30" and "01:15" |
| `MenuBarDisplay.TotalDuration` | PauseNow/UI/MenuBar/MenuBarDisplayModels.swift:37 | at least 60 and a multiple of 60; the minutes times 60 when at least 1, else 60 |
| `MenuBarDisplay.Progress` | PauseNow/UI/MenuBar/MenuBarDisplayModels.swift:55-60 | always in [0, 1]; remaining over total when within [0, total]; 1 at or beyond total; 0 at or below 0 remaining and whenever the total is not positive |
| `MenuBarDisplay.Build` | PauseNow/UI/MenuBar/MenuBarDisplayModels.swift:30-69 | stopped: the full duration, not flowing; running: `max(0, due - now)` or the full duration without a due date, flowing; paused: `max(0, frozen ?? full)`, not flowing; the text formats that same remaining value and the progress is `Progress` of it |
| `MenuBarDisplay.BuildStoppedExample` | PauseNowTests/PauseNowTests.swift:35-54 | stopped with 25 minutes: remaining 1500, "25:00", progress 1, not flowing |
| `MenuBarDisplay.BuildRunningExample` | PauseNowTests/PauseNowTests.swift:56-74 | running 90 s before the due date: remaining 90, "01:30", progress 0.075, flowing |
| `MenuBarDisplay.BuildPausedExample` | PauseNowTests/PauseNowTests.swift:76-93 | paused with 75 s: remaining 75, "01:15", progress 0.0625, not flowing |
| `Settings.DefaultSettings` | PauseNow/Data/SettingsStore.swift:4-18 | 20 minutes, 20 s eye break, a standup every 3, 180 s standup, and the non-empty default prompt |
| `Settings.SkipWhitespace` | PauseNow/Data/SettingsValidator.swift:11 | the index where the leading whitespace of the input ends: everything before it is whitespace and the character at it, if any, is not |
| `Settings.SkipWhitespaceBack` | PauseNow/Data/SettingsValidator.swift:11 | the index where the trailing whitespace of the input starts (not below a lower bound): everything from it on is whitespace and the character before it, if above the bound, is not |
| `Settings.Trim` | PauseNow/Data/SettingsValidator.swift:11 | a contiguous slice of the input, with whitespace on neither end, and only whitespace dropped on both sides |
| `Settings.Sanitized` | PauseNow/Data/SettingsValidator.swift:4-14 | all four counts and durations are at least 1: any already at least 1 is kept and any below 1 becomes exactly 1; the prompt is the trimmed prompt, or the default when that is empty; the prompt is never empty |
| `Settings.SanitizedIsIdempotent` | PauseNow/Data/SettingsValidator.swift:4-14 | sanitizing twice equals sanitizing once |
| `Overlay.OverlayViewModel.constructor` | PauseNow/UI/Overlay/OverlayViewModel.swift:23-27 | total and remaining both equal the requested seconds clamped to at least 1; neither completed nor skipped |
| `Overlay.OverlayViewModel.Start` | PauseNow/UI/Overlay/OverlayViewModel.swift:29-34 | remaining back to the total, both flags cleared |
| `Overlay.OverlayViewModel.Advance` | PauseNow/UI/Overlay/OverlayViewModel.swift:52-58 | a no-op when completed, skipped or for a non-positive step; otherwise remaining becomes `max(0, remaining - seconds)`, completing exactly when it reaches 0; keeps remaining within [0, total] and never completed and skipped together |
| `Overlay.OverlayViewModel.Skip` | PauseNow/UI/Overlay/OverlayViewModel.swift:60-64 | a no-op when completed, otherwise marks skipped; remaining untouched |
| `Overlay.OverlayScenarios` | PauseNowTests/PauseNowTests.swift:136-152 | advancing a 20 s overlay by 20 completes it; a skipped overlay is skipped and does not complete |
| `Records.OnDay` | PauseNow/Data/RecordStore.swift:40 | holds exactly the records whose timestamp falls on the given day |
| `Records.CountOutcome` | PauseNow/Data/RecordStore.swift:41-42 | the count never exceeds the number of records |
| `Records.OutcomesPartition` | PauseNow/Data/RecordStore.swift:40-43 | completed plus skipped counts every record |
| `Records.OnDayAppend` | PauseNow/Data/RecordStore.swift:35-40 | appending a record extends the day's records by it exactly when it is on that day |
| `Records.CountOutcomeConcat` | PauseNow/Data/RecordStore.swift:41-42 | outcome counts add up over concatenation |
| `Records.StatsOn` | PauseNow/Data/RecordStore.swift:39-44 | completed plus skipped equals the number of records on the day of `now` |
| `Records.StatsOnAppend` | PauseNow/Data/RecordStore.swift:35-44 | appending a record on the day of `now` bumps exactly its outcome's count; on another day it changes nothing |
| `Records.RecordStore.constructor` | PauseNow/Data/RecordStore.swift:31-33 | an empty log |
| `Records.RecordStore.Append` | PauseNow/Data/RecordStore.swift:35-37 | exactly one record with the given type, outcome and time is added at the end; earlier records are unchanged |
| `Records.RecordStore.TodayStats` | PauseNow/Data/RecordStore.swift:39-44 | reads only; completed plus skipped equals the number of records on the day of `now` |
| `Records.TodayStatsScenario` | PauseNowTests/PauseNowTests.swift:295-304 | one completed and one skipped record today give counts (1, 1) |

## Left out

- The heartbeat (`DispatchSourceTimer`), its global-queue handler and the `deinit` cancellation: concurrency and an OS timer. The host calls `ProcessTick` as an ordinary method.
- The clock (`TimeProviding`) and logging (`AppLogging`): the clock becomes the `now` parameter and log messages are dropped.
- `Date` and `TimeInterval` are floating point in Swift; here they are integer seconds. Sub-second due dates and the `rounded(.down)` in the formatter (the identity on whole seconds) are not modelled.
- Swift's trap on `Int` overflow (for example `minutes * 60`) is not modelled: integers are unbounded.
- The settings store's persistence and its change notification are I/O. The stored settings are a parameter, and the choice between `resetSchedule` and `applySettingsWithoutReset` on a change is the caller's.
- The `[weak self]` guards in the overlay continuations: the coordinator is assumed alive when the presenter calls back.
- The overlay presenter's own behaviour (dismissing an earlier overlay, hopping to the main thread) is not modelled; only what the coordinator hands it is.
- `OverlayViewModel.startRealtimeCountdown` (a Foundation timer calling `advance(by: 1)`) and its `titleText` strings: UI timing and text.
- The calendar's same-day test is a foreign library call, abstracted as a day function `dayOf`.
- `SettingsViewModel`, the SwiftUI/AppKit views and controllers, and `MenuBarController.swift`'s duplicate formatter: presentation code.
- `SettingsResetPolicy`, `saveDurations` and `saveSchedule` appear only in the tests; they are not part of this model.
