/**
 * The reminder coordinator: the stopped / running / paused state machine that
 * owns a rule engine and a timer, turns a due timer into a presented break,
 * and keeps at most one overlay in flight.
 *
 * The clock and the settings store are read by the source at the moment of
 * each call; here `now` (integer seconds) and `settings` are parameters. The
 * overlay presenter is modelled by what it is handed: `presentations` logs
 * every presentation (break type and duration), and `unresolved` holds the
 * breaks whose skip / complete continuation the presenter has not yet called.
 */
module Coordination {
  import opened Wrappers
  import opened ReminderModels
  import opened Rules
  import opened Timers
  import opened SmartMode
  import opened Settings

  datatype ReminderRuntimeState = Stopped | Running | Paused

  /** One call of the overlay presenter: the break to show and for how many seconds. */
  datatype Presentation = Presentation(kind: ReminderType, durationSeconds: int)

  /** The rule configuration the coordinator builds from the settings. */
  function RuleConfigFor(settings: AppSettings): (config: RuleConfig)
    ensures config.standupEveryEyeBreaks
      == if settings.standupEveryEyeBreaks >= 1 then settings.standupEveryEyeBreaks else 1
  {
    NewRuleConfig(settings.standupEveryEyeBreaks)
  }

  /** The timer configuration the coordinator builds from the settings: the interval in seconds. */
  function TimerConfigFor(settings: AppSettings): (config: TimerConfig)
    ensures config.eyeBreakInterval
      == if settings.eyeBreakIntervalMinutes * 60 >= 1 then settings.eyeBreakIntervalMinutes * 60 else 1
    ensures settings.eyeBreakIntervalMinutes >= 1 ==> config.eyeBreakInterval == settings.eyeBreakIntervalMinutes * 60
  {
    NewTimerConfig(settings.eyeBreakIntervalMinutes * 60)
  }

  /** How long the presenter is asked to show a break: the per-type duration, as stored. */
  function DurationFor(t: ReminderType, settings: AppSettings): (seconds: int)
    ensures t == EyeBreak ==> seconds == settings.eyeBreakSeconds
    ensures t == Standup ==> seconds == settings.standupSeconds
  {
    if t == EyeBreak then settings.eyeBreakSeconds else settings.standupSeconds
  }

  /** A timer in the state `pause(now)` leaves when it had due date `due` and frozen seconds `paused`. */
  ghost predicate PausedFrom(timer: TimerEngine, due: Option<int>, paused: Option<nat>, now: int)
    reads timer
  {
    timer.nextDueDate == due
    && timer.pausedRemaining == (if due.Some? then Some(if due.value >= now then due.value - now else 0) else paused)
  }

  /** A timer in the state `resume(now)` leaves when it had due date `due` and frozen seconds `paused`. */
  ghost predicate ResumedFrom(timer: TimerEngine, due: Option<int>, paused: Option<nat>, now: int)
    reads timer
  {
    timer.pausedRemaining == None
    && timer.nextDueDate == (if paused.Some? then Some(now + paused.value) else due)
  }

  /** A timer built from the settings and armed one interval after `now`. */
  ghost predicate ArmedFrom(timer: TimerEngine, settings: AppSettings, now: int)
    reads timer
  {
    timer.config == TimerConfigFor(settings)
    && timer.nextDueDate == Some(now + TimerConfigFor(settings).eyeBreakInterval)
    && timer.pausedRemaining == None
  }

  class ReminderCoordinator {
    const smartMonitor: SmartModeMonitor
    var engine: RuleEngine
    var timerEngine: TimerEngine
    var overlayInFlight: bool
    var state: ReminderRuntimeState
    var presentations: seq<Presentation>
    var unresolved: seq<ReminderType>

    /**
     * An overlay in flight has a continuation still to come, and a stopped
     * coordinator has no overlay in flight.
     */
    ghost predicate Valid()
      reads this
    {
      (overlayInFlight ==> |unresolved| > 0)
      && (state == Stopped ==> !overlayInFlight)
    }

    /** Engines freshly built from the settings: counter 0, timer not armed. */
    ghost predicate RuntimeBuiltFrom(settings: AppSettings)
      reads this, engine, timerEngine
    {
      engine.config == RuleConfigFor(settings) && engine.completedEyeBreaksInCurrentCycle == 0
      && timerEngine.config == TimerConfigFor(settings)
      && timerEngine.nextDueDate == None && timerEngine.pausedRemaining == None
    }

    /** The break the rule engine predicts now. */
    ghost function PredictedKind(): ReminderType
      reads this, engine
    {
      Predict(engine.completedEyeBreaksInCurrentCycle, engine.config)
    }

    /**
     * Every guard of `processTick` passes: running, no overlay in flight, not
     * asleep, not deferred, and a due date that `now` has reached.
     */
    ghost predicate TickPresents(now: int)
      reads this, timerEngine, smartMonitor
    {
      state == Running && !overlayInFlight
      && !smartMonitor.isPausedBySystemState && !smartMonitor.shouldDeferReminder
      && timerEngine.nextDueDate.Some? && now >= timerEngine.nextDueDate.value
    }

    /** The due date shown to presentation layers. */
    function NextDueDate(): (d: Option<int>)
      reads this, timerEngine
      ensures d == timerEngine.nextDueDate
    {
      timerEngine.nextDueDate
    }

    constructor (settings: AppSettings, smartMonitor: SmartModeMonitor)
      ensures Valid()
      ensures this.smartMonitor == smartMonitor
      ensures state == Stopped && !overlayInFlight
      ensures fresh(engine) && fresh(timerEngine) && RuntimeBuiltFrom(settings)
      ensures presentations == [] && unresolved == []
    {
      this.smartMonitor := smartMonitor;
      engine := new RuleEngine(RuleConfigFor(settings));
      timerEngine := new TimerEngine(TimerConfigFor(settings));
      overlayInFlight := false;
      state := Stopped;
      presentations := [];
      unresolved := [];
    }

    /**
     * From stopped: fresh engines from the settings, the timer armed one
     * interval after `now`, running. From paused: the timer resumed at `now`,
     * running. From running: nothing changes.
     */
    method Start(now: int, settings: AppSettings)
      requires Valid()
      modifies this, timerEngine
      ensures Valid()
      ensures state == Running
      ensures overlayInFlight == old(overlayInFlight)
      ensures presentations == old(presentations) && unresolved == old(unresolved)
      ensures old(state) == Stopped ==>
        fresh(engine) && fresh(timerEngine)
        && engine.config == RuleConfigFor(settings) && engine.completedEyeBreaksInCurrentCycle == 0
        && ArmedFrom(timerEngine, settings, now)
      ensures old(state) != Stopped ==> engine == old(engine) && timerEngine == old(timerEngine)
      ensures old(state) == Paused ==>
        ResumedFrom(timerEngine, old(timerEngine.nextDueDate), old(timerEngine.pausedRemaining), now)
      ensures old(state) == Running ==>
        timerEngine.nextDueDate == old(timerEngine.nextDueDate)
        && timerEngine.pausedRemaining == old(timerEngine.pausedRemaining)
    {
      match state {
        case Stopped =>
          ResetRuntime(settings);
          timerEngine.Start(now);
        case Paused =>
          timerEngine.Resume(now);
        case Running =>
          return;
      }
      state := Running;
    }

    /** The one-button action: stopped starts, running pauses, paused resumes. */
    method TogglePrimaryAction(now: int, settings: AppSettings)
      requires Valid()
      modifies this, timerEngine
      ensures Valid()
      ensures old(state) == Stopped ==> state == Running
      ensures old(state) == Running ==> state == Paused
      ensures old(state) == Paused ==> state == Running
      ensures overlayInFlight == old(overlayInFlight)
      ensures presentations == old(presentations) && unresolved == old(unresolved)
      ensures old(state) == Stopped ==>
        fresh(engine) && fresh(timerEngine)
        && engine.config == RuleConfigFor(settings) && engine.completedEyeBreaksInCurrentCycle == 0
        && ArmedFrom(timerEngine, settings, now)
      ensures old(state) != Stopped ==> engine == old(engine) && timerEngine == old(timerEngine)
      ensures old(state) == Running ==>
        PausedFrom(timerEngine, old(timerEngine.nextDueDate), old(timerEngine.pausedRemaining), now)
      ensures old(state) == Paused ==>
        ResumedFrom(timerEngine, old(timerEngine.nextDueDate), old(timerEngine.pausedRemaining), now)
    {
      match state
      case Stopped =>
        Start(now, settings);
      case Running =>
        Pause(now);
      case Paused =>
        Resume(now);
    }

    /** Only from running: freezes the timer at `now` and moves to paused. Otherwise nothing changes. */
    method Pause(now: int)
      requires Valid()
      modifies this, timerEngine
      ensures Valid()
      ensures engine == old(engine) && timerEngine == old(timerEngine)
      ensures overlayInFlight == old(overlayInFlight)
      ensures presentations == old(presentations) && unresolved == old(unresolved)
      ensures old(state) == Running ==>
        state == Paused
        && PausedFrom(timerEngine, old(timerEngine.nextDueDate), old(timerEngine.pausedRemaining), now)
      ensures old(state) != Running ==>
        state == old(state)
        && timerEngine.nextDueDate == old(timerEngine.nextDueDate)
        && timerEngine.pausedRemaining == old(timerEngine.pausedRemaining)
    {
      if state != Running {
        return;
      }
      timerEngine.Pause(now);
      state := Paused;
    }

    /** Only from paused: re-anchors the timer at `now` and moves to running. Otherwise nothing changes. */
    method Resume(now: int)
      requires Valid()
      modifies this, timerEngine
      ensures Valid()
      ensures engine == old(engine) && timerEngine == old(timerEngine)
      ensures overlayInFlight == old(overlayInFlight)
      ensures presentations == old(presentations) && unresolved == old(unresolved)
      ensures old(state) == Paused ==>
        state == Running
        && ResumedFrom(timerEngine, old(timerEngine.nextDueDate), old(timerEngine.pausedRemaining), now)
      ensures old(state) != Paused ==>
        state == old(state)
        && timerEngine.nextDueDate == old(timerEngine.nextDueDate)
        && timerEngine.pausedRemaining == old(timerEngine.pausedRemaining)
    {
      if state != Paused {
        return;
      }
      timerEngine.Resume(now);
      state := Running;
    }

    /**
     * The heartbeat. Presents the predicted break exactly when every guard
     * passes; a tick that fails a guard changes nothing, so the same due
     * break is tried again on the next tick. A tick never touches the rule
     * counter, the timer or the run state.
     */
    method ProcessTick(now: int, settings: AppSettings)
      requires Valid()
      modifies this
      ensures Valid()
      ensures state == old(state) && engine == old(engine) && timerEngine == old(timerEngine)
      ensures old(TickPresents(now)) ==>
        overlayInFlight
        && presentations == old(presentations) + [Presentation(PredictedKind(), DurationFor(PredictedKind(), settings))]
        && unresolved == old(unresolved) + [PredictedKind()]
      ensures !old(TickPresents(now)) ==>
        overlayInFlight == old(overlayInFlight)
        && presentations == old(presentations) && unresolved == old(unresolved)
    {
      if state != Running || overlayInFlight {
        return;
      }
      if smartMonitor.isPausedBySystemState {
        return;
      }
      if smartMonitor.shouldDeferReminder {
        return;
      }
      if timerEngine.nextDueDate == None || now < timerEngine.nextDueDate.value {
        return;
      }
      var event := engine.NextEvent(now);
      Present(event.kind, settings);
    }

    /**
     * A break on demand, of the type the cycle rule predicts, ignoring the
     * timer. Blocked while an overlay is in flight. From stopped it first
     * builds fresh engines and moves to running, but leaves the timer unarmed
     * until the break is resolved; from paused the state stays paused.
     */
    method ManualBreakByCycle(now: int, settings: AppSettings)
      requires Valid()
      modifies this
      ensures Valid()
      ensures old(overlayInFlight) ==>
        state == old(state) && engine == old(engine) && timerEngine == old(timerEngine)
        && overlayInFlight && presentations == old(presentations) && unresolved == old(unresolved)
      ensures !old(overlayInFlight) && old(state) == Stopped ==>
        state == Running && fresh(engine) && fresh(timerEngine) && RuntimeBuiltFrom(settings)
      ensures !old(overlayInFlight) && old(state) != Stopped ==>
        state == old(state) && engine == old(engine) && timerEngine == old(timerEngine)
      ensures !old(overlayInFlight) ==>
        overlayInFlight
        && presentations == old(presentations) + [Presentation(PredictedKind(), DurationFor(PredictedKind(), settings))]
        && unresolved == old(unresolved) + [PredictedKind()]
    {
      if overlayInFlight {
        return;
      }
      if state == Stopped {
        ResetRuntime(settings);
        state := Running;
      }
      var event := engine.NextEvent(now);
      Present(event.kind, settings);
    }

    /**
     * Back to the stopped baseline from any state: no overlay in flight and
     * fresh engines (counter 0, no due date). Continuations of an overlay
     * that is still on screen stay outstanding.
     */
    method ResetSchedule(settings: AppSettings)
      modifies this
      ensures Valid()
      ensures state == Stopped && !overlayInFlight
      ensures fresh(engine) && fresh(timerEngine) && RuntimeBuiltFrom(settings)
      ensures presentations == old(presentations) && unresolved == old(unresolved)
    {
      state := Stopped;
      overlayInFlight := false;
      ResetRuntime(settings);
    }

    /**
     * Applies a changed cycle length to the running rule engine without
     * resetting: the counter, the timer and the run state are untouched.
     */
    method ApplySettingsWithoutReset(settings: AppSettings)
      requires Valid()
      modifies engine
      ensures Valid()
      ensures engine.config == RuleConfigFor(settings)
      ensures engine.completedEyeBreaksInCurrentCycle == old(engine.completedEyeBreaksInCurrentCycle)
      ensures NextDueDate() == old(NextDueDate())
    {
      engine.ApplyConfigWithoutReset(RuleConfigFor(settings));
    }

    /**
     * The presenter's skip continuation for the outstanding break `k`: the
     * rule counter is not advanced; the overlay guard is cleared and a fresh
     * timer from the current settings is armed at `now`, whatever the state.
     */
    method ResolveSkip(k: nat, now: int, settings: AppSettings)
      requires Valid()
      requires k < |unresolved|
      modifies this
      ensures Valid()
      ensures state == old(state) && engine == old(engine)
      ensures engine.config == old(engine.config)
      ensures engine.completedEyeBreaksInCurrentCycle == old(engine.completedEyeBreaksInCurrentCycle)
      ensures !overlayInFlight
      ensures fresh(timerEngine) && ArmedFrom(timerEngine, settings, now)
      ensures presentations == old(presentations)
      ensures unresolved == old(unresolved[..k] + unresolved[k + 1..])
    {
      unresolved := unresolved[..k] + unresolved[k + 1..];
      CompleteOverlayAndRestartTimer(now, settings);
    }

    /**
     * The presenter's complete continuation for the outstanding break `k`:
     * the rule counter consumes that break, then, as for a skip, the overlay
     * guard is cleared and a fresh timer is armed at `now`.
     */
    method ResolveComplete(k: nat, now: int, settings: AppSettings)
      requires Valid()
      requires k < |unresolved|
      modifies this, engine
      ensures Valid()
      ensures state == old(state) && engine == old(engine)
      ensures engine.config == old(engine.config)
      ensures engine.completedEyeBreaksInCurrentCycle
        == AfterCompletion(old(engine.completedEyeBreaksInCurrentCycle), old(unresolved[k]))
      ensures !overlayInFlight
      ensures fresh(timerEngine) && ArmedFrom(timerEngine, settings, now)
      ensures presentations == old(presentations)
      ensures unresolved == old(unresolved[..k] + unresolved[k + 1..])
    {
      engine.MarkCompleted(unresolved[k]);
      unresolved := unresolved[..k] + unresolved[k + 1..];
      CompleteOverlayAndRestartTimer(now, settings);
    }

    /** Hands a break to the presenter and sets the overlay guard. */
    method Present(t: ReminderType, settings: AppSettings)
      modifies this
      ensures overlayInFlight
      ensures state == old(state) && engine == old(engine) && timerEngine == old(timerEngine)
      ensures presentations == old(presentations) + [Presentation(t, DurationFor(t, settings))]
      ensures unresolved == old(unresolved) + [t]
    {
      overlayInFlight := true;
      presentations := presentations + [Presentation(t, DurationFor(t, settings))];
      unresolved := unresolved + [t];
    }

    /** Replaces both engines by fresh ones built from the settings. */
    method ResetRuntime(settings: AppSettings)
      modifies this
      ensures fresh(engine) && fresh(timerEngine) && RuntimeBuiltFrom(settings)
      ensures state == old(state) && overlayInFlight == old(overlayInFlight)
      ensures presentations == old(presentations) && unresolved == old(unresolved)
    {
      engine := new RuleEngine(RuleConfigFor(settings));
      timerEngine := new TimerEngine(TimerConfigFor(settings));
    }

    /** Clears the overlay guard and arms a brand-new timer from the settings at `now`. */
    method CompleteOverlayAndRestartTimer(now: int, settings: AppSettings)
      modifies this
      ensures !overlayInFlight
      ensures fresh(timerEngine) && ArmedFrom(timerEngine, settings, now)
      ensures state == old(state) && engine == old(engine)
      ensures presentations == old(presentations) && unresolved == old(unresolved)
    {
      overlayInFlight := false;
      timerEngine := new TimerEngine(TimerConfigFor(settings));
      timerEngine.Start(now);
    }
  }
  // ---------------------------------------------------------------------------
  // Client scenarios: the coordinator's test cases, proved from the contracts
  // above. A fresh smart-mode monitor has both gates open.

  /**
   * Start, pause and resume at one instant, then tick: a tick one second
   * before the due date presents nothing, a tick at the due date presents
   * once, and a second tick while that overlay is in flight presents nothing.
   */
  method TickPresentsOnceWhenDue(now: int, settings: AppSettings)
    returns (afterStart: ReminderRuntimeState, afterPause: ReminderRuntimeState, afterResume: ReminderRuntimeState,
             early: nat, atDue: nat, again: nat)
    ensures afterStart == Running && afterPause == Paused && afterResume == Running
    ensures early == 0 && atDue == 1 && again == 1
  {
    var monitor := new SmartModeMonitor(15);
    var c := new ReminderCoordinator(settings, monitor);
    c.Start(now, settings);
    afterStart := c.state;
    c.Pause(now);
    afterPause := c.state;
    c.Resume(now);
    afterResume := c.state;
    var due := c.NextDueDate().value;
    c.ProcessTick(due - 1, settings);
    early := |c.presentations|;
    c.ProcessTick(due, settings);
    atDue := |c.presentations|;
    c.ProcessTick(due, settings);
    again := |c.presentations|;
  }

  /** The primary action cycles stopped, running, paused, running. */
  method ToggleCyclesStartPauseResume(now: int, settings: AppSettings)
    returns (first: ReminderRuntimeState, second: ReminderRuntimeState, third: ReminderRuntimeState)
    ensures first == Running && second == Paused && third == Running
  {
    var monitor := new SmartModeMonitor(15);
    var c := new ReminderCoordinator(settings, monitor);
    c.TogglePrimaryAction(now, settings);
    first := c.state;
    c.TogglePrimaryAction(now, settings);
    second := c.state;
    c.TogglePrimaryAction(now, settings);
    third := c.state;
  }

  /**
   * A manual break from stopped presents once, of the type the cycle rule
   * gives a fresh counter (an eye break unless the cycle length is 1), and
   * leaves the coordinator running with no due date until it is resolved.
   */
  method ManualBreakFromStopped(now: int, settings: AppSettings)
    returns (count: nat, kind: ReminderType, after: ReminderRuntimeState, due: Option<int>)
    ensures count == 1
    ensures kind == if RuleConfigFor(settings).standupEveryEyeBreaks == 1 then Standup else EyeBreak
    ensures after == Running && due == None
  {
    var monitor := new SmartModeMonitor(15);
    var c := new ReminderCoordinator(settings, monitor);
    c.ManualBreakByCycle(now, settings);
    count := |c.presentations|;
    kind := c.presentations[0].kind;
    after := c.state;
    due := c.NextDueDate();
    assert kind == Predict(0, RuleConfigFor(settings));
    if RuleConfigFor(settings).standupEveryEyeBreaks != 1 {
      ModUnique(1, RuleConfigFor(settings).standupEveryEyeBreaks, 0, 1);
    }
  }

  /**
   * With a cycle length of 2, two manual breaks that the presenter completes
   * one after the other are an eye break and then a standup.
   */
  method ManualBreaksFollowConfiguredCycle(now: int, settings: AppSettings) returns (kinds: seq<ReminderType>)
    requires settings.standupEveryEyeBreaks == 2
    ensures kinds == [EyeBreak, Standup]
  {
    var monitor := new SmartModeMonitor(15);
    var c := new ReminderCoordinator(settings, monitor);
    c.ManualBreakByCycle(now, settings);
    c.ResolveComplete(0, now, settings);
    c.ManualBreakByCycle(now, settings);
    kinds := [c.presentations[0].kind, c.presentations[1].kind];
  }

  /** Starting and then resetting gives the stopped baseline with no due date. */
  method ResetReturnsToStoppedBaseline(now: int, settings: AppSettings)
    returns (startedDue: Option<int>, after: ReminderRuntimeState, due: Option<int>)
    ensures startedDue.Some? && after == Stopped && due == None
  {
    var monitor := new SmartModeMonitor(15);
    var c := new ReminderCoordinator(settings, monitor);
    c.Start(now, settings);
    startedDue := c.NextDueDate();
    c.ResetSchedule(settings);
    after := c.state;
    due := c.NextDueDate();
  }

  /**
   * A cycle-length change applied without reset keeps the due date but
   * changes the next presented type: with a cycle of at least 2, one
   * completed eye break, and the cycle then set to 2, the next due tick
   * presents a standup.
   */
  method CycleChangeWithoutResetKeepsDueDate(start: int, resolvedAt: int, settings: AppSettings)
    returns (dueBefore: Option<int>, dueAfter: Option<int>, kinds: seq<ReminderType>)
    requires settings.standupEveryEyeBreaks >= 2
    ensures dueBefore.Some? && dueAfter == dueBefore
    ensures kinds == [EyeBreak, Standup]
  {
    var monitor := new SmartModeMonitor(15);
    var c := new ReminderCoordinator(settings, monitor);
    c.Start(start, settings);
    var firstDue := c.NextDueDate().value;
    c.ProcessTick(firstDue, settings);
    ModUnique(1, settings.standupEveryEyeBreaks, 0, 1);
    c.ResolveComplete(0, resolvedAt, settings);
    dueBefore := c.NextDueDate();
    var updated := settings.(standupEveryEyeBreaks := 2);
    c.ApplySettingsWithoutReset(updated);
    dueAfter := c.NextDueDate();
    c.ProcessTick(dueBefore.value, updated);
    kinds := [c.presentations[0].kind, c.presentations[1].kind];
  }

  /**
   * A manual break taken while paused: its resolution arms a fresh timer
   * although the state stays paused, and the later resume finds no frozen
   * seconds, so the due date it leaves is the one the resolution armed.
   */
  method ManualBreakWhilePaused(now: int, resolvedAt: int, resumedAt: int, settings: AppSettings)
    returns (afterResolve: ReminderRuntimeState, armed: Option<int>, afterResume: ReminderRuntimeState, due: Option<int>)
    ensures afterResolve == Paused
    ensures armed == Some(resolvedAt + TimerConfigFor(settings).eyeBreakInterval)
    ensures afterResume == Running && due == armed
  {
    var monitor := new SmartModeMonitor(15);
    var c := new ReminderCoordinator(settings, monitor);
    c.Start(now, settings);
    c.Pause(now);
    c.ManualBreakByCycle(now, settings);
    c.ResolveComplete(0, resolvedAt, settings);
    afterResolve := c.state;
    armed := c.NextDueDate();
    c.Resume(resumedAt);
    afterResume := c.state;
    due := c.NextDueDate();
  }
}
