/**
 * The value types shared by the reminder engine: the two kinds of break,
 * the event the rule engine predicts, and the rule configuration.
 */
module ReminderModels {

  /** The two kinds of break: a short eye break and a longer standup. */
  datatype ReminderType = EyeBreak | Standup

  /**
   * An ephemeral prediction: which break comes next, stamped with the instant
   * (integer seconds) at which it was asked for. The datatype constructor
   * stores exactly the kind and instant it is given.
   */
  datatype ReminderEvent = ReminderEvent(kind: ReminderType, dueAt: int)

  /** A cycle length: how many breaks make up one cycle ending in a standup. */
  type CycleLength = n: int | n >= 1 witness 1

  /**
   * The rule configuration. Its only initialiser clamps, so the
   * field is at least 1 and `nextEvent`'s modulo never divides by zero.
   */
  datatype RuleConfig = RuleConfig(standupEveryEyeBreaks: CycleLength)

  /** `RuleConfig.init`: any requested cycle length, clamped to at least 1. */
  function NewRuleConfig(standupEveryEyeBreaks: int): (c: RuleConfig)
    ensures c.standupEveryEyeBreaks >= 1
    ensures standupEveryEyeBreaks >= 1 ==> c.standupEveryEyeBreaks == standupEveryEyeBreaks
    ensures standupEveryEyeBreaks <= 0 ==> c.standupEveryEyeBreaks == 1
  {
    RuleConfig(if standupEveryEyeBreaks >= 1 then standupEveryEyeBreaks else 1)
  }

  /** `RuleConfig.default`: a standup every third break. */
  function DefaultRuleConfig(): (c: RuleConfig)
    ensures c.standupEveryEyeBreaks == 3
  {
    NewRuleConfig(3)
  }
}
