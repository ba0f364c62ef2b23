/** The break overlay's countdown: it runs down to completion unless it is skipped first. */
module Overlay {
  import opened ReminderModels

  class OverlayViewModel {
    const kind: ReminderType
    const totalSeconds: int
    var remainingSeconds: int
    var isCompleted: bool
    var isSkipped: bool

    /**
     * The countdown stays within [0, total]; it is completed exactly when it
     * has reached 0; and it is never both completed and skipped.
     */
    ghost predicate Valid()
      reads this
    {
      totalSeconds >= 1
      && 0 <= remainingSeconds <= totalSeconds
      && (isCompleted <==> remainingSeconds == 0)
      && !(isCompleted && isSkipped)
    }

    /** A full countdown of the requested seconds, clamped to at least 1. */
    constructor (kind: ReminderType, seconds: int)
      ensures Valid()
      ensures this.kind == kind
      ensures seconds >= 1 ==> totalSeconds == seconds
      ensures seconds < 1 ==> totalSeconds == 1
      ensures remainingSeconds == totalSeconds && !isCompleted && !isSkipped
    {
      this.kind := kind;
      totalSeconds := if seconds >= 1 then seconds else 1;
      remainingSeconds := if seconds >= 1 then seconds else 1;
      isCompleted := false;
      isSkipped := false;
    }

    /** Rewinds to a full, neither completed nor skipped countdown. */
    method Start()
      requires Valid()
      modifies this
      ensures Valid()
      ensures remainingSeconds == totalSeconds && !isCompleted && !isSkipped
    {
      isCompleted := false;
      isSkipped := false;
      remainingSeconds := totalSeconds;
    }

    /**
     * Counts down by `seconds`, stopping at 0, and completes on reaching 0.
     * Nothing happens once completed or skipped, or for a non-positive step.
     */
    method Advance(seconds: int)
      requires Valid()
      modifies this
      ensures Valid()
      ensures isSkipped == old(isSkipped)
      ensures old(isCompleted) || old(isSkipped) || seconds <= 0 ==>
        remainingSeconds == old(remainingSeconds) && isCompleted == old(isCompleted)
      ensures !old(isCompleted) && !old(isSkipped) && seconds > 0 ==>
        remainingSeconds == (if old(remainingSeconds) > seconds then old(remainingSeconds) - seconds else 0)
        && (isCompleted <==> seconds >= old(remainingSeconds))
    {
      if isCompleted || isSkipped || seconds <= 0 {
        return;
      }
      remainingSeconds := if remainingSeconds - seconds > 0 then remainingSeconds - seconds else 0;
      if remainingSeconds == 0 {
        isCompleted := true;
      }
    }

    /** Marks the countdown skipped, unless it has already completed. */
    method Skip()
      requires Valid()
      modifies this
      ensures Valid()
      ensures remainingSeconds == old(remainingSeconds) && isCompleted == old(isCompleted)
      ensures old(isCompleted) ==> isSkipped == old(isSkipped)
      ensures !old(isCompleted) ==> isSkipped
    {
      if isCompleted {
        return;
      }
      isSkipped := true;
    }
  }

  /**
   * The overlay cases of the test suite: a 20-second eye break advanced by
   * 20 completes; a standup skipped right after starting is skipped and not
   * completed, and a later advance does not complete it.
   */
  method OverlayScenarios() returns (completedAfterAdvance: bool, skipped: bool, completedAfterSkip: bool)
    ensures completedAfterAdvance
    ensures skipped && !completedAfterSkip
  {
    var eye := new OverlayViewModel(EyeBreak, 20);
    eye.Start();
    eye.Advance(20);
    completedAfterAdvance := eye.isCompleted;

    var standup := new OverlayViewModel(Standup, 180);
    standup.Start();
    standup.Skip();
    skipped := standup.isSkipped;
    standup.Advance(180);
    completedAfterSkip := standup.isCompleted;
  }
}
