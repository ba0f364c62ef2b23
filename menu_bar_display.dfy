/**
 * The pure mapping from the coordinator's observable state to what the menu
 * bar and the home popover show: the seconds remaining, their `mm:ss` text,
 * the hourglass fill fraction and whether the sand is flowing.
 */
module MenuBarDisplay {
  import opened Wrappers
  import opened Settings
  import opened Coordination

  // ---------------------------------------------------------------------------
  // Decimal text

  predicate IsDigit(c: char) {
    '0' <= c <= '9'
  }

  predicate AllDigits(s: string) {
    forall i :: 0 <= i < |s| ==> IsDigit(s[i])
  }

  function DigitChar(d: nat): (c: char)
    requires d < 10
    ensures IsDigit(c) && c as int - '0' as int == d
  {
    (48 + d) as char
  }

  /** The number a string of decimal digits denotes, most significant digit first. */
  function DecimalValue(s: string): nat
    requires AllDigits(s)
  {
    if s == [] then 0
    else DecimalValue(s[..|s| - 1]) * 10 + (s[|s| - 1] as int - '0' as int)
  }

  /** The decimal digits of `n`, without leading zeros. */
  function Decimal(n: nat): (s: string)
    ensures |s| >= 1 && AllDigits(s)
    ensures n < 10 <==> |s| == 1
    ensures n < 100 <==> |s| <= 2
    ensures s[0] == '0' <==> n == 0
    ensures |s| == 1 || s[0] != '0'
    decreases n
  {
    if n < 10 then [DigitChar(n)] else Decimal(n / 10) + [DigitChar(n % 10)]
  }

  /** Reading the digits back gives the number. */
  lemma {:induction false} DecimalRoundTrip(n: nat)
    ensures DecimalValue(Decimal(n)) == n
    decreases n
  {
    var s := Decimal(n);
    if n >= 10 {
      DecimalRoundTrip(n / 10);
      assert s[..|s| - 1] == Decimal(n / 10);
    }
  }

  /** `%02d` for a non-negative number: its digits, zero-padded on the left to at least two. */
  function Pad2(n: nat): (s: string)
    ensures |s| >= 2 && AllDigits(s)
    ensures DecimalValue(s) == n
    ensures n < 100 <==> |s| == 2
    ensures |s| == 2 || s[0] != '0'
  {
    DecimalRoundTrip(n);
    if n < 10 then
      var s := "0" + Decimal(n);
      assert s[..1] == "0";
      s
    else Decimal(n)
  }

  /**
   * `MenuBarTextFormatter.format`: the remaining seconds, negatives read as 0,
   * printed as minutes, a colon and seconds, each at least two digits. The
   * colon is always third from the end; the digits before it read back as
   * the whole minutes and the two after it as the leftover seconds; the text
   * is exactly five characters when less than 100 minutes remain.
   */
  function Format(remaining: int): (s: string)
    ensures var seconds := if remaining > 0 then remaining else 0;
      |s| >= 5 && s[|s| - 3] == ':'
      && AllDigits(s[..|s| - 3]) && DecimalValue(s[..|s| - 3]) == seconds / 60
      && AllDigits(s[|s| - 2..]) && DecimalValue(s[|s| - 2..]) == seconds % 60
      && (|s| == 5 <==> seconds < 6000)
    ensures |s| == 5 || s[0] != '0'
  {
    var seconds := if remaining > 0 then remaining else 0;
    var minutesText := Pad2(seconds / 60);
    var secondsText := Pad2(seconds % 60);
    var s := minutesText + ":" + secondsText;
    assert s[..|s| - 3] == minutesText;
    assert s[|s| - 2..] == secondsText;
    s
  }

  /** `MenuBarTextFormatter.countdownText`. */
  function CountdownText(remaining: int): string {
    Format(remaining)
  }

  /**
   * The countdown text reads back as the remaining seconds, negatives as 0:
   * its minutes times 60 plus its seconds.
   */
  lemma CountdownTextReadsBack(remaining: int)
    ensures var s := CountdownText(remaining);
      |s| >= 5 && s[|s| - 3] == ':'
      && AllDigits(s[..|s| - 3]) && AllDigits(s[|s| - 2..])
      && DecimalValue(s[..|s| - 3]) * 60 + DecimalValue(s[|s| - 2..])
         == if remaining > 0 then remaining else 0
  {
    var seconds := if remaining > 0 then remaining else 0;
    assert seconds == seconds / 60 * 60 + seconds % 60;
  }

  /** `Format` of a non-negative count is its padded minutes, a colon and its padded seconds. */
  lemma FormatOfSeconds(seconds: nat)
    ensures Format(seconds) == Pad2(seconds / 60) + ":" + Pad2(seconds % 60)
  {
  }

  // The formatter cases of the test suite and of the display mapper's tests.

  lemma FormatExample65()
    ensures CountdownText(65) == "01:05"
  {
    assert Pad2(1) == "01" && Pad2(5) == "05";
    FormatOfSeconds(65);
  }

  lemma FormatExample125()
    ensures CountdownText(125) == "02:05"
  {
    assert Pad2(2) == "02" && Pad2(5) == "05";
    FormatOfSeconds(125);
  }

  lemma FormatExample1500()
    ensures CountdownText(1500) == "25:00"
  {
    assert Pad2(25) == "25" && Pad2(0) == "00";
    FormatOfSeconds(1500);
  }

  lemma FormatExample90()
    ensures CountdownText(90) == "01:30"
  {
    assert Pad2(1) == "01" && Pad2(30) == "30";
    FormatOfSeconds(90);
  }

  lemma FormatExample75()
    ensures CountdownText(75) == "01:15"
  {
    assert Pad2(1) == "01" && Pad2(15) == "15";
    FormatOfSeconds(75);
  }

  lemma FormatExamples()
    ensures CountdownText(65) == "01:05"
    ensures CountdownText(125) == "02:05"
    ensures CountdownText(1500) == "25:00"
    ensures CountdownText(90) == "01:30"
    ensures CountdownText(75) == "01:15"
  {
    FormatExample65();
    FormatExample125();
    FormatExample1500();
    FormatExample90();
    FormatExample75();
  }

  // ---------------------------------------------------------------------------
  // The display snapshot

  datatype MenuBarDisplayState = Countdown(remaining: int)

  datatype HomeDisplayModel = HomeDisplayModel(remainingText: string, sandProgress: real, isFlowing: bool)

  datatype DisplaySnapshot = DisplaySnapshot(menuBarState: MenuBarDisplayState, home: HomeDisplayModel)

  /** A full countdown in seconds: the configured minutes, at least one, times 60. */
  function TotalDuration(settings: AppSettings): (total: int)
    ensures total >= 60 && total % 60 == 0
    ensures settings.eyeBreakIntervalMinutes >= 1 ==> total == settings.eyeBreakIntervalMinutes * 60
    ensures settings.eyeBreakIntervalMinutes < 1 ==> total == 60
  {
    AtLeastOne(settings.eyeBreakIntervalMinutes) * 60
  }

  /**
   * The hourglass fill: remaining over total, clamped to [0, 1]; 0 when the
   * total is not positive.
   */
  function Progress(remaining: int, total: int): (p: real)
    ensures 0.0 <= p <= 1.0
    ensures total > 0 && 0 <= remaining <= total ==> p * total as real == remaining as real
    ensures total > 0 && remaining >= total ==> p == 1.0
    ensures total > 0 && remaining <= 0 ==> p == 0.0
    ensures total <= 0 ==> p == 0.0
  {
    if total > 0 then
      var fraction := remaining as real / total as real;
      var atLeastZero := if fraction > 0.0 then fraction else 0.0;
      if atLeastZero < 1.0 then atLeastZero else 1.0
    else 0.0
  }

  /**
   * `ReminderDisplayMapper.build`. The remaining seconds are the full
   * duration when stopped; the seconds to the due date (never negative, the
   * full duration without a due date) when running; the frozen seconds
   * (never negative, the full duration without them) when paused. Only
   * running flows. The text is that same remaining value formatted, and the
   * progress is remaining over full, clamped to [0, 1].
   */
  function Build(
    runtimeState: ReminderRuntimeState,
    nextDueDate: Option<int>,
    pausedRemaining: Option<int>,
    settings: AppSettings,
    now: int): (snap: DisplaySnapshot)
    ensures var total := TotalDuration(settings);
      var remaining := snap.menuBarState.remaining;
      remaining >= 0
      && (runtimeState == Stopped ==> remaining == total && !snap.home.isFlowing)
      && (runtimeState == Running ==>
            snap.home.isFlowing
            && remaining == (if nextDueDate == None then total
                             else if nextDueDate.value >= now then nextDueDate.value - now else 0))
      && (runtimeState == Paused ==>
            !snap.home.isFlowing
            && remaining == (if pausedRemaining.GetOr(total) >= 0 then pausedRemaining.GetOr(total) else 0))
      && snap.home.remainingText == CountdownText(remaining)
      && snap.home.sandProgress == Progress(remaining, total)
  {
    var total := TotalDuration(settings);
    var due := nextDueDate.GetOr(now);
    var runningRemaining := if due - now > 0 then due - now else 0;
    var (remaining, isFlowing) :=
      match runtimeState
      case Stopped => (total, false)
      case Running => (if nextDueDate == None then total else runningRemaining, true)
      case Paused =>
        var frozen := pausedRemaining.GetOr(total);
        (if frozen > 0 then frozen else 0, false);
    var progress := Progress(remaining, total);
    DisplaySnapshot(
      Countdown(remaining),
      HomeDisplayModel(CountdownText(remaining), progress, isFlowing))
  }

  /** Stopped with a 25-minute interval: the full "25:00", a full hourglass, no flow. */
  lemma BuildStoppedExample(now: int)
    ensures Build(Stopped, None, None, DefaultSettings().(eyeBreakIntervalMinutes := 25), now)
      == DisplaySnapshot(Countdown(1500), HomeDisplayModel("25:00", 1.0, false))
  {
    var snap := Build(Stopped, None, None, DefaultSettings().(eyeBreakIntervalMinutes := 25), now);
    assert TotalDuration(DefaultSettings().(eyeBreakIntervalMinutes := 25)) == 1500;
    assert snap.menuBarState.remaining == 1500;
    FormatExample1500();
  }

  /** Running 90 s before the due date with the default 20 minutes: "01:30", 0.075 full, flowing. */
  lemma BuildRunningExample(now: int)
    ensures Build(Running, Some(now + 90), None, DefaultSettings(), now)
      == DisplaySnapshot(Countdown(90), HomeDisplayModel("01:30", 0.075, true))
  {
    var snap := Build(Running, Some(now + 90), None, DefaultSettings(), now);
    assert TotalDuration(DefaultSettings()) == 1200;
    assert snap.menuBarState.remaining == 90;
    FormatExample90();
    assert Progress(90, 1200) == 0.075;
  }

  /** Paused with 75 s left and the default 20 minutes: "01:15", 0.0625 full, not flowing. */
  lemma BuildPausedExample(now: int)
    ensures Build(Paused, None, Some(75), DefaultSettings(), now)
      == DisplaySnapshot(Countdown(75), HomeDisplayModel("01:15", 0.0625, false))
  {
    var snap := Build(Paused, None, Some(75), DefaultSettings(), now);
    assert TotalDuration(DefaultSettings()) == 1200;
    assert snap.menuBarState.remaining == 75;
    FormatExample75();
    assert Progress(75, 1200) == 0.0625;
  }
}
