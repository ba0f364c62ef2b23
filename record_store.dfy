/**
 * The log of resolved breaks and its per-day statistics. The calendar's
 * "same day" test is abstracted as a function from an instant to its day:
 * two instants are on the same day when `dayOf` maps them to the same value.
 */
module Records {
  import opened ReminderModels

  datatype ReminderOutcome = Completed | Skipped

  datatype ReminderRecord = ReminderRecord(kind: ReminderType, outcome: ReminderOutcome, timestamp: int)

  datatype DailyStats = DailyStats(completedCount: nat, skippedCount: nat)

  /** The records whose timestamp falls on `day`, in log order. */
  function OnDay(records: seq<ReminderRecord>, dayOf: int -> int, day: int): (r: seq<ReminderRecord>)
    ensures |r| <= |records|
    ensures forall x :: x in r <==> x in records && dayOf(x.timestamp) == day
  {
    if records == [] then []
    else
      (if dayOf(records[0].timestamp) == day then [records[0]] else []) + OnDay(records[1..], dayOf, day)
  }

  /** How many records have the given outcome. */
  function CountOutcome(records: seq<ReminderRecord>, outcome: ReminderOutcome): (n: nat)
    ensures n <= |records|
  {
    if records == [] then 0
    else (if records[0].outcome == outcome then 1 else 0) + CountOutcome(records[1..], outcome)
  }

  /** Every record is either completed or skipped. */
  lemma {:induction false} OutcomesPartition(records: seq<ReminderRecord>)
    ensures CountOutcome(records, Completed) + CountOutcome(records, Skipped) == |records|
  {
    if records != [] {
      OutcomesPartition(records[1..]);
    }
  }

  /** Filtering by day distributes over appending one record. */
  lemma {:induction false} OnDayAppend(records: seq<ReminderRecord>, x: ReminderRecord, dayOf: int -> int, day: int)
    ensures OnDay(records + [x], dayOf, day)
      == OnDay(records, dayOf, day) + (if dayOf(x.timestamp) == day then [x] else [])
  {
    if records != [] {
      assert (records + [x])[1..] == records[1..] + [x];
      OnDayAppend(records[1..], x, dayOf, day);
    }
  }

  /** Counting an outcome distributes over concatenation. */
  lemma {:induction false} CountOutcomeConcat(records: seq<ReminderRecord>, extra: seq<ReminderRecord>, outcome: ReminderOutcome)
    ensures CountOutcome(records + extra, outcome)
      == CountOutcome(records, outcome) + CountOutcome(extra, outcome)
  {
    if records != [] {
      assert (records + extra)[1..] == records[1..] + extra;
      CountOutcomeConcat(records[1..], extra, outcome);
    } else {
      assert records + extra == extra;
    }
  }

  /**
   * The statistics for the day of `now`: completed and skipped records of
   * that day. Together they count every record of that day.
   */
  function StatsOn(records: seq<ReminderRecord>, dayOf: int -> int, now: int): (st: DailyStats)
    ensures st.completedCount + st.skippedCount == |OnDay(records, dayOf, dayOf(now))|
  {
    var today := OnDay(records, dayOf, dayOf(now));
    OutcomesPartition(today);
    DailyStats(CountOutcome(today, Completed), CountOutcome(today, Skipped))
  }

  /**
   * Appending a record bumps exactly the counter of its outcome when it is on
   * the day of `now`, and leaves the statistics alone otherwise.
   */
  lemma StatsOnAppend(records: seq<ReminderRecord>, x: ReminderRecord, dayOf: int -> int, now: int)
    ensures var before := StatsOn(records, dayOf, now);
      StatsOn(records + [x], dayOf, now) ==
        if dayOf(x.timestamp) != dayOf(now) then before
        else if x.outcome == Completed then DailyStats(before.completedCount + 1, before.skippedCount)
        else DailyStats(before.completedCount, before.skippedCount + 1)
  {
    var day := dayOf(now);
    var extra := if dayOf(x.timestamp) == day then [x] else [];
    OnDayAppend(records, x, dayOf, day);
    CountOutcomeConcat(OnDay(records, dayOf, day), extra, Completed);
    CountOutcomeConcat(OnDay(records, dayOf, day), extra, Skipped);
  }

  class RecordStore {
    const dayOf: int -> int
    var records: seq<ReminderRecord>

    constructor (dayOf: int -> int)
      ensures this.dayOf == dayOf && records == []
    {
      this.dayOf := dayOf;
      records := [];
    }

    /** Adds one record at the end of the log; earlier records are untouched. */
    method Append(kind: ReminderType, outcome: ReminderOutcome, date: int)
      modifies this
      ensures records == old(records) + [ReminderRecord(kind, outcome, date)]
    {
      records := records + [ReminderRecord(kind, outcome, date)];
    }

    /** The statistics of the day of `now`; reading them changes nothing. */
    function TodayStats(now: int): (st: DailyStats)
      reads this
      ensures st == StatsOn(records, dayOf, now)
      ensures st.completedCount + st.skippedCount == |OnDay(records, dayOf, dayOf(now))|
    {
      StatsOn(records, dayOf, now)
    }
  }

  /** The test-suite case: one completed and one skipped break today count as one each. */
  method TodayStatsScenario(now: int, dayOf: int -> int) returns (stats: DailyStats)
    ensures stats == DailyStats(1, 1)
  {
    var store := new RecordStore(dayOf);
    store.Append(EyeBreak, Completed, now);
    StatsOnAppend([], ReminderRecord(EyeBreak, Completed, now), dayOf, now);
    store.Append(Standup, Skipped, now);
    StatsOnAppend([ReminderRecord(EyeBreak, Completed, now)], ReminderRecord(Standup, Skipped, now), dayOf, now);
    stats := store.TodayStats(now);
  }
}
