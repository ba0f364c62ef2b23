/**
 * The due-date timer: one optional due instant plus the seconds frozen by a
 * pause. All instants and durations are integer seconds.
 */
module Timers {
  import opened Wrappers

  /** A timer interval in seconds; the only initialiser clamps it to at least 1. */
  type IntervalSeconds = n: int | n >= 1 witness 1

  datatype TimerConfig = TimerConfig(eyeBreakInterval: IntervalSeconds)

  /** `TimerConfig.init`: the requested interval, clamped to at least one second. */
  function NewTimerConfig(eyeBreakInterval: int): (c: TimerConfig)
    ensures c.eyeBreakInterval >= 1
    ensures eyeBreakInterval >= 1 ==> c.eyeBreakInterval == eyeBreakInterval
    ensures eyeBreakInterval < 1 ==> c.eyeBreakInterval == 1
  {
    TimerConfig(if eyeBreakInterval >= 1 then eyeBreakInterval else 1)
  }

  /** `TimerConfig.default`: twenty minutes. */
  function DefaultTimerConfig(): (c: TimerConfig)
    ensures c.eyeBreakInterval == 1200
  {
    NewTimerConfig(20 * 60)
  }

  /**
   * Idle (no due date), armed (a due date, nothing paused) or paused (the due
   * date frozen and the seconds left held in `pausedRemaining`, never negative).
   */
  class TimerEngine {
    const config: TimerConfig
    var pausedRemaining: Option<nat>
    var nextDueDate: Option<int>

    constructor (config: TimerConfig)
      ensures this.config == config
      ensures nextDueDate == None && pausedRemaining == None
    {
      this.config := config;
      pausedRemaining := None;
      nextDueDate := None;
    }

    /** Arms the timer one interval after `now`, whatever state it was in. */
    method Start(now: int)
      modifies this
      ensures nextDueDate == Some(now + config.eyeBreakInterval)
      ensures pausedRemaining == None
    {
      nextDueDate := Some(now + config.eyeBreakInterval);
      pausedRemaining := None;
    }

    /**
     * Freezes the seconds left until the due date (zero once it has passed);
     * the due date itself stays as it was. Without a due date nothing happens.
     */
    method Pause(now: int)
      modifies this
      ensures nextDueDate == old(nextDueDate)
      ensures old(nextDueDate) == None ==> pausedRemaining == old(pausedRemaining)
      ensures old(nextDueDate).Some? ==>
        pausedRemaining == Some(if old(nextDueDate).value >= now then old(nextDueDate).value - now else 0)
    {
      if nextDueDate == None {
        return;
      }
      var due := nextDueDate.value;
      pausedRemaining := Some(if due - now > 0 then due - now else 0);
    }

    /**
     * Re-anchors the due date at `now` plus the frozen seconds and clears them.
     * Without frozen seconds nothing happens.
     */
    method Resume(now: int)
      modifies this
      ensures old(pausedRemaining) == None ==> nextDueDate == old(nextDueDate) && pausedRemaining == None
      ensures old(pausedRemaining).Some? ==> nextDueDate == Some(now + old(pausedRemaining).value)
      ensures pausedRemaining == None
    {
      if pausedRemaining == None {
        return;
      }
      nextDueDate := Some(now + pausedRemaining.value);
      pausedRemaining := None;
    }

    /** Back to idle. */
    method Reset()
      modifies this
      ensures nextDueDate == None && pausedRemaining == None
    {
      nextDueDate := None;
      pausedRemaining := None;
    }
  }

  /**
   * Pausing and resuming at the same instant gives back the due date exactly
   * when that date had not yet passed; an overdue timer is re-armed at the
   * pause instant instead.
   */
  method PauseResumeAtSameInstant(config: TimerConfig, started: int, now: int)
    returns (before: Option<int>, after: Option<int>)
    ensures before == Some(started + config.eyeBreakInterval)
    ensures now <= started + config.eyeBreakInterval ==> after == before
    ensures now > started + config.eyeBreakInterval ==> after == Some(now)
  {
    var timer := new TimerEngine(config);
    timer.Start(started);
    timer.Pause(now);
    before := timer.nextDueDate;
    timer.Resume(now);
    after := timer.nextDueDate;
  }

  /** The regression scenario of the test suite: start, pause and resume at one instant. */
  method DefaultPauseResumeKeepsDueDate(now: int) returns (pausedDue: Option<int>, resumedDue: Option<int>)
    ensures pausedDue == Some(now + 1200)
    ensures resumedDue == pausedDue
  {
    var timer := new TimerEngine(DefaultTimerConfig());
    timer.Start(now);
    timer.Pause(now);
    pausedDue := timer.nextDueDate;
    timer.Resume(now);
    resumedDue := timer.nextDueDate;
  }
}
