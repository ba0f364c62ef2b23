/** The two independent suppression gates fed by the host: fullscreen and system sleep. */
module SmartMode {

  class SmartModeMonitor {
    /** Seconds to wait before replaying a deferred reminder; fixed at construction. */
    const replayDelay: nat
    var shouldDeferReminder: bool
    var isPausedBySystemState: bool

    /** Both gates open; a negative replay delay is clamped to zero. */
    constructor (replayDelay: int)
      ensures replayDelay >= 0 ==> this.replayDelay == replayDelay
      ensures replayDelay < 0 ==> this.replayDelay == 0
      ensures !shouldDeferReminder && !isPausedBySystemState
    {
      this.replayDelay := if replayDelay > 0 then replayDelay else 0;
      shouldDeferReminder := false;
      isPausedBySystemState := false;
    }

    /** Fullscreen sets the defer gate and leaves the sleep gate alone. */
    method SetFullscreen(enabled: bool)
      modifies this
      ensures shouldDeferReminder == enabled
      ensures isPausedBySystemState == old(isPausedBySystemState)
    {
      shouldDeferReminder := enabled;
    }

    /** Sleep and wake set the sleep gate and leave the defer gate alone. */
    method SetSystemSleeping(sleeping: bool)
      modifies this
      ensures isPausedBySystemState == sleeping
      ensures shouldDeferReminder == old(shouldDeferReminder)
    {
      isPausedBySystemState := sleeping;
    }

    /** The configured replay delay, never negative. */
    function ScheduledReplayDelay(): (d: int)
      reads this
      ensures d >= 0
      ensures d == replayDelay
    {
      replayDelay
    }
  }

  /**
   * The monitor scenarios of the test suite: fullscreen defers, and sleeping
   * then waking leaves the system gate open again; the replay delay never moves.
   */
  method SleepWakeScenario(replayDelay: int) returns (deferring: bool, asleep: bool, awake: bool, delay: int)
    ensures deferring && asleep && !awake
    ensures delay == if replayDelay > 0 then replayDelay else 0
  {
    var monitor := new SmartModeMonitor(replayDelay);
    monitor.SetFullscreen(true);
    deferring := monitor.shouldDeferReminder;
    monitor.SetSystemSleeping(true);
    asleep := monitor.isPausedBySystemState;
    monitor.SetSystemSleeping(false);
    awake := monitor.isPausedBySystemState;
    delay := monitor.ScheduledReplayDelay();
  }
}
