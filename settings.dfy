/**
 * The user settings the engine reads, and their sanitizer. Persistence of the
 * settings is not part of this model; the stored value is passed in.
 */
module Settings {

  datatype AppSettings = AppSettings(
    eyeBreakIntervalMinutes: int,
    eyeBreakSeconds: int,
    standupEveryEyeBreaks: int,
    standupSeconds: int,
    defaultPromptText: string)

  /** `AppSettings.defaultPromptText`: "现在稍息！" ("take a short break now!"). */
  const DefaultPromptText: string := "现在稍息！"

  /** `AppSettings.default`. */
  function DefaultSettings(): (s: AppSettings)
    ensures s.eyeBreakIntervalMinutes == 20 && s.eyeBreakSeconds == 20
    ensures s.standupEveryEyeBreaks == 3 && s.standupSeconds == 180
    ensures s.defaultPromptText == DefaultPromptText && |s.defaultPromptText| == 5
  {
    AppSettings(20, 20, 3, 180, DefaultPromptText)
  }

  /**
   * Foundation's `whitespacesAndNewlines`: Unicode general category Z
   * (space, line and paragraph separators) together with U+0009 to U+000D
   * and U+0085.
   */
  predicate IsWhitespace(c: char) {
    ('\U{9}' <= c <= '\U{D}') || c == '\U{20}' || c == '\U{85}' || c == '\U{A0}'
    || c == '\U{1680}' || ('\U{2000}' <= c <= '\U{200A}') || c == '\U{2028}' || c == '\U{2029}'
    || c == '\U{202F}' || c == '\U{205F}' || c == '\U{3000}'
  }

  /** The end of the run of whitespace in `s` that starts at index `i`. */
  function SkipWhitespace(s: string, i: nat): (j: nat)
    requires i <= |s|
    ensures i <= j <= |s|
    ensures forall m :: i <= m < j ==> IsWhitespace(s[m])
    ensures j == |s| || !IsWhitespace(s[j])
    decreases |s| - i
  {
    if i < |s| && IsWhitespace(s[i]) then SkipWhitespace(s, i + 1) else i
  }

  /** The start of the run of whitespace in `s` that ends just before index `j`, going no lower than `lo`. */
  function SkipWhitespaceBack(s: string, lo: nat, j: nat): (e: nat)
    requires lo <= j <= |s|
    ensures lo <= e <= j
    ensures forall m :: e <= m < j ==> IsWhitespace(s[m])
    ensures e == lo || !IsWhitespace(s[e - 1])
    decreases j
  {
    if j > lo && IsWhitespace(s[j - 1]) then SkipWhitespaceBack(s, lo, j - 1) else j
  }

  /**
   * `trimmingCharacters(in: .whitespacesAndNewlines)`: the contiguous part of
   * `s` left once whitespace is removed from both ends. Everything removed is
   * whitespace, and what is left neither starts nor ends with whitespace.
   */
  function Trim(s: string): (r: string)
    ensures var k := SkipWhitespace(s, 0);
      k + |r| <= |s| && r == s[k..k + |r|]
      && (forall i :: 0 <= i < k ==> IsWhitespace(s[i]))
      && (forall i :: k + |r| <= i < |s| ==> IsWhitespace(s[i]))
    ensures r == [] || (!IsWhitespace(r[0]) && !IsWhitespace(r[|r| - 1]))
  {
    var k := SkipWhitespace(s, 0);
    var e := SkipWhitespaceBack(s, k, |s|);
    s[k..e]
  }

  /** A string with no whitespace at either end is its own trim. */
  lemma TrimOfTrimmed(s: string)
    requires s == [] || (!IsWhitespace(s[0]) && !IsWhitespace(s[|s| - 1]))
    ensures Trim(s) == s
  {
    if s != [] {
      assert SkipWhitespace(s, 0) == 0;
      assert SkipWhitespaceBack(s, 0, |s|) == |s|;
    }
    assert s[0..|s|] == s;
  }

  /** The default prompt has no whitespace at either end. */
  lemma DefaultPromptIsTrimmed()
    ensures Trim(DefaultPromptText) == DefaultPromptText
  {
    assert !IsWhitespace(DefaultPromptText[0]) && !IsWhitespace(DefaultPromptText[4]);
    TrimOfTrimmed(DefaultPromptText);
  }

  /**
   * `SettingsValidator.sanitized`: every count and duration clamped to at
   * least 1 (values already at least 1 are kept), and the prompt trimmed,
   * falling back to the default prompt when nothing but whitespace was given.
   */
  function Sanitized(settings: AppSettings): (r: AppSettings)
    ensures r.eyeBreakIntervalMinutes >= 1 && r.eyeBreakSeconds >= 1
    ensures r.standupEveryEyeBreaks >= 1 && r.standupSeconds >= 1
    ensures settings.eyeBreakIntervalMinutes >= 1 ==> r.eyeBreakIntervalMinutes == settings.eyeBreakIntervalMinutes
    ensures settings.eyeBreakSeconds >= 1 ==> r.eyeBreakSeconds == settings.eyeBreakSeconds
    ensures settings.standupEveryEyeBreaks >= 1 ==> r.standupEveryEyeBreaks == settings.standupEveryEyeBreaks
    ensures settings.standupSeconds >= 1 ==> r.standupSeconds == settings.standupSeconds
    ensures settings.eyeBreakIntervalMinutes < 1 ==> r.eyeBreakIntervalMinutes == 1
    ensures settings.eyeBreakSeconds < 1 ==> r.eyeBreakSeconds == 1
    ensures settings.standupEveryEyeBreaks < 1 ==> r.standupEveryEyeBreaks == 1
    ensures settings.standupSeconds < 1 ==> r.standupSeconds == 1
    ensures Trim(settings.defaultPromptText) != [] ==> r.defaultPromptText == Trim(settings.defaultPromptText)
    ensures Trim(settings.defaultPromptText) == [] ==> r.defaultPromptText == DefaultPromptText
    ensures r.defaultPromptText != []
  {
    var prompt := Trim(settings.defaultPromptText);
    AppSettings(
      AtLeastOne(settings.eyeBreakIntervalMinutes),
      AtLeastOne(settings.eyeBreakSeconds),
      AtLeastOne(settings.standupEveryEyeBreaks),
      AtLeastOne(settings.standupSeconds),
      if prompt == [] then DefaultPromptText else prompt)
  }

  /** `max(1, n)`. */
  function AtLeastOne(n: int): int {
    if n >= 1 then n else 1
  }

  /** Sanitizing twice is the same as sanitizing once. */
  lemma SanitizedIsIdempotent(settings: AppSettings)
    ensures Sanitized(Sanitized(settings)) == Sanitized(settings)
  {
    var once := Sanitized(settings);
    var prompt := Trim(settings.defaultPromptText);
    if prompt == [] {
      DefaultPromptIsTrimmed();
    } else {
      TrimOfTrimmed(prompt);
    }
  }
}
