/**
 * The cyclic break policy: a counter of eye breaks completed in the current
 * cycle decides whether the next break is an eye break or a standup.
 */
module Rules {
  import opened ReminderModels

  /**
   * The type the next break will have when `completed` eye breaks are done in
   * the current cycle: the counter is tested as if already incremented, so the
   * N-th break of a cycle is the standup.
   */
  function Predict(completed: nat, config: RuleConfig): ReminderType {
    if (completed + 1) % config.standupEveryEyeBreaks == 0 then Standup else EyeBreak
  }

  /** The counter after a break of type `t` has been completed. */
  function AfterCompletion(completed: nat, t: ReminderType): nat {
    match t
    case EyeBreak => completed + 1
    case Standup => 0
  }

  /**
   * The rule engine. The source declares it as a struct with `mutating`
   * methods that is owned by exactly one coordinator; it is modelled as a
   * class whose fields those methods update.
   */
  class RuleEngine {
    var config: RuleConfig
    var completedEyeBreaksInCurrentCycle: nat

    constructor (config: RuleConfig)
      ensures this.config == config
      ensures completedEyeBreaksInCurrentCycle == 0
    {
      this.config := config;
      completedEyeBreaksInCurrentCycle := 0;
    }

    /** Adds `times` completed eye breaks; a count of zero or less is ignored. */
    method MarkEyeBreakCompleted(times: int)
      modifies this
      ensures config == old(config)
      ensures times > 0 ==> completedEyeBreaksInCurrentCycle == old(completedEyeBreaksInCurrentCycle) + times
      ensures times <= 0 ==> completedEyeBreaksInCurrentCycle == old(completedEyeBreaksInCurrentCycle)
    {
      if times <= 0 {
        return;
      }
      completedEyeBreaksInCurrentCycle := completedEyeBreaksInCurrentCycle + times;
    }

    /** Swaps the cycle length and keeps the progress made in the current cycle. */
    method ApplyConfigWithoutReset(config: RuleConfig)
      modifies this
      ensures this.config == config
      ensures completedEyeBreaksInCurrentCycle == old(completedEyeBreaksInCurrentCycle)
    {
      this.config := config;
    }

    /**
     * Predicts the next break without changing anything: a standup exactly
     * when one more completed break closes the cycle.
     */
    function NextEvent(now: int): (e: ReminderEvent)
      reads this
      ensures e.dueAt == now
      ensures e.kind == Standup <==> (completedEyeBreaksInCurrentCycle + 1) % config.standupEveryEyeBreaks == 0
      ensures e.kind == Predict(completedEyeBreaksInCurrentCycle, config)
    {
      ReminderEvent(Predict(completedEyeBreaksInCurrentCycle, config), now)
    }

    /** Consumes one presented break: an eye break counts up, a standup closes the cycle. */
    method MarkCompleted(t: ReminderType)
      modifies this
      ensures config == old(config)
      ensures t == EyeBreak ==> completedEyeBreaksInCurrentCycle == old(completedEyeBreaksInCurrentCycle) + 1
      ensures t == Standup ==> completedEyeBreaksInCurrentCycle == 0
      ensures completedEyeBreaksInCurrentCycle == AfterCompletion(old(completedEyeBreaksInCurrentCycle), t)
    {
      match t
      case EyeBreak =>
        completedEyeBreaksInCurrentCycle := completedEyeBreaksInCurrentCycle + 1;
      case Standup =>
        completedEyeBreaksInCurrentCycle := 0;
    }
  }

  // ---------------------------------------------------------------------------
  // The cycle the rule produces when every predicted break is completed.

  /** The counter after `k` predicted breaks have been presented and completed, from `start`. */
  function CounterAfter(config: RuleConfig, start: nat, k: nat): nat
    decreases k
  {
    if k == 0 then start
    else
      var c := CounterAfter(config, start, k - 1);
      AfterCompletion(c, Predict(c, config))
  }

  /** The type of the break with index `k` (from 0) of a schedule started on a fresh counter. */
  function ScheduledType(config: RuleConfig, k: nat): ReminderType {
    Predict(CounterAfter(config, 0, k), config)
  }

  /** From a fresh counter the counter after `k` completed predictions is `k mod N`. */
  lemma {:induction false} CounterAfterIsCyclePosition(config: RuleConfig, k: nat)
    ensures CounterAfter(config, 0, k) == k % config.standupEveryEyeBreaks
  {
    var n: int := config.standupEveryEyeBreaks;
    if k > 0 {
      CounterAfterIsCyclePosition(config, k - 1);
      var c := CounterAfter(config, 0, k - 1);
      ModStep(k - 1, n);
      if c == n - 1 {
        ModUnique(c + 1, n, 1, 0);
      } else {
        ModUnique(c + 1, n, 0, c + 1);
      }
    }
  }

  /**
   * The schedule is periodic with period N: break `k` is a standup exactly
   * when it is the last (N-th) break of its cycle, so each cycle is N - 1 eye
   * breaks followed by one standup.
   */
  lemma ScheduleIsPeriodic(config: RuleConfig, k: nat)
    ensures ScheduledType(config, k) == Standup <==> k % config.standupEveryEyeBreaks == config.standupEveryEyeBreaks - 1
    ensures ScheduledType(config, k + config.standupEveryEyeBreaks) == ScheduledType(config, k)
  {
    var n: int := config.standupEveryEyeBreaks;
    CounterAfterIsCyclePosition(config, k);
    CounterAfterIsCyclePosition(config, k + n);
    ModPeriod(k, n);
    LastInCycle(k % n, n);
  }

  /** With a cycle length of 1 every break is a standup. */
  lemma EveryBreakIsStandupForCycleOne(config: RuleConfig, k: nat)
    requires config.standupEveryEyeBreaks == 1
    ensures ScheduledType(config, k) == Standup
  {
    CounterAfterIsCyclePosition(config, k);
  }

  /**
   * The three rule-engine scenarios of the test suite with the default cycle
   * of 3: two eye breaks done predicts a standup, one done predicts an eye
   * break, and completing that standup predicts an eye break again.
   */
  method DefaultCycleScenarios(now: int) returns (afterTwo: ReminderType, afterOne: ReminderType, afterStandup: ReminderType)
    ensures afterTwo == Standup
    ensures afterOne == EyeBreak
    ensures afterStandup == EyeBreak
  {
    var engine := new RuleEngine(DefaultRuleConfig());
    engine.MarkEyeBreakCompleted(2);
    afterTwo := engine.NextEvent(now).kind;

    var other := new RuleEngine(DefaultRuleConfig());
    other.MarkEyeBreakCompleted(1);
    afterOne := other.NextEvent(now).kind;

    engine.MarkCompleted(afterTwo);
    afterStandup := engine.NextEvent(now).kind;
  }
  // ---------------------------------------------------------------------------
  // Arithmetic helpers for the modulo in the boundary test.

  lemma MulAtLeast(d: int, n: int)
    requires d >= 1 && n >= 1
    ensures d * n >= n
  {
    if d > 1 {
      MulAtLeast(d - 1, n);
      assert d * n == (d - 1) * n + n;
    }
  }

  /** Euclidean division has one quotient and remainder. */
  lemma ModUnique(a: int, n: int, q: int, r: int)
    requires n >= 1 && 0 <= r < n && a == q * n + r
    ensures a % n == r && a / n == q
  {
    var d := q - a / n;
    assert d * n == a % n - r;
    if d >= 1 {
      MulAtLeast(d, n);
    }
  }

  /** Adding N does not change the remainder. */
  lemma ModPeriod(k: nat, n: int)
    requires n >= 1
    ensures (k + n) % n == k % n
  {
    var q, p := k / n, k % n;
    assert (q + 1) * n == q * n + n;
    ModUnique(k + n, n, q + 1, p);
  }

  /** Within a cycle, the next count reaches N exactly from the last position. */
  lemma LastInCycle(p: int, n: int)
    requires n >= 1 && 0 <= p < n
    ensures (p + 1) % n == 0 <==> p == n - 1
  {
    ModUnique(p, n, 0, p);
    ModStep(p, n);
  }

  /** Counting one further wraps the remainder around at N. */
  lemma ModStep(m: nat, n: int)
    requires n >= 1
    ensures (m + 1) % n == if m % n == n - 1 then 0 else m % n + 1
  {
    var q, r := m / n, m % n;
    if r + 1 < n {
      ModUnique(m + 1, n, q, r + 1);
    } else {
      assert m + 1 == (q + 1) * n;
      ModUnique(m + 1, n, q + 1, 0);
    }
  }
}
