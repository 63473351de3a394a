/**
 * Two helpers of the backend: the display form of a run folder's
 * timestamp, and the loading of the user settings with their two
 * language entries filled in when missing.
 */
module GeneralUtils {
  import opened PyValues

  /** Python's `s[lo:hi]` for `0 <= lo <= hi`: both bounds are clamped to the string. */
  function Slice(s: string, lo: nat, hi: nat): (r: string)
    requires lo <= hi
    ensures |r| == if |s| <= lo then 0 else (if hi < |s| then hi else |s|) - lo
    ensures forall p :: 0 <= p < |r| ==> r[p] == s[lo + p]
  {
    if |s| <= lo then [] else s[lo..if hi < |s| then hi else |s|]
  }

  /** `format_dir_time`: `YYYYMMDDHHMM...` shown as `DD.MM.YYYY HH:MM`. */
  function FormatDirTime(dirTime: string): string {
    Slice(dirTime, 6, 8) + "." + Slice(dirTime, 4, 6) + "." + Slice(dirTime, 0, 4) + " "
      + Slice(dirTime, 8, 10) + ":" + Slice(dirTime, 10, 12)
  }

  /** Reads the digits back out of a formatted timestamp, in folder-name order. */
  function DirTimeOf(formatted: string): string
    requires |formatted| == 16
  {
    formatted[6..10] + formatted[3..5] + formatted[0..2] + formatted[11..13] + formatted[14..16]
  }

  /**
   * For a timestamp of at least 12 characters the display form has 16
   * characters: day, month, year, hour and minute at fixed places, with
   * `.`, `.`, ` ` and `:` between them.
   */
  lemma FormatDirTimeLayout(dirTime: string)
    requires |dirTime| >= 12
    ensures |FormatDirTime(dirTime)| == 16
    ensures FormatDirTime(dirTime)[2] == '.' && FormatDirTime(dirTime)[5] == '.'
    ensures FormatDirTime(dirTime)[10] == ' ' && FormatDirTime(dirTime)[13] == ':'
    ensures FormatDirTime(dirTime)[0..2] == dirTime[6..8] && FormatDirTime(dirTime)[3..5] == dirTime[4..6]
    ensures FormatDirTime(dirTime)[6..10] == dirTime[0..4]
    ensures FormatDirTime(dirTime)[11..13] == dirTime[8..10] && FormatDirTime(dirTime)[14..16] == dirTime[10..12]
  {
    var r := FormatDirTime(dirTime);
    assert r == dirTime[6..8] + "." + dirTime[4..6] + "." + dirTime[0..4] + " " + dirTime[8..10] + ":" + dirTime[10..12];
  }

  /** The display form loses nothing of the first 12 characters: they can be read back from it. */
  lemma FormatDirTimeRoundTrip(dirTime: string)
    requires |dirTime| >= 12
    ensures |FormatDirTime(dirTime)| == 16 && DirTimeOf(FormatDirTime(dirTime)) == dirTime[..12]
  {
    FormatDirTimeLayout(dirTime);
    var r := FormatDirTime(dirTime);
    assert dirTime[..12] == dirTime[0..4] + dirTime[4..6] + dirTime[6..8] + dirTime[8..10] + dirTime[10..12];
  }

  /** The seconds, and anything else after the 12th character, never show. */
  lemma FormatDirTimeIgnoresTail(dirTime: string, tail: string)
    requires |dirTime| == 12
    ensures FormatDirTime(dirTime + tail) == FormatDirTime(dirTime)
  {
    FormatDirTimeLayout(dirTime + tail);
    FormatDirTimeLayout(dirTime);
    var s := dirTime + tail;
    assert s[0..4] == dirTime[0..4] && s[4..6] == dirTime[4..6] && s[6..8] == dirTime[6..8];
    assert s[8..10] == dirTime[8..10] && s[10..12] == dirTime[10..12];
  }

  /** A date without time: the slices past the end are empty. */
  lemma FormatDirTimeShort()
    ensures FormatDirTime("20240315") == "15.03.2024 :"
  {
  }

  /** The languages offered by default, name to code. */
  const DefaultLanguage: PyValue := PDict(map[
    "English" := PStr("en"), "Русский" := PStr("ru"), "Portugal" := PStr("pt"),
    "中文" := PStr("zh"), "한국어" := PStr("ko")])

  /** The user language when none is chosen. */
  const StandardLanguage: PyValue := PDict(map["code" := PStr("en"), "name" := PStr("English")])

  const UserLanguageKey: string := "user_language"
  const DefaultLanguageKey: string := "default_language"

  function DefaultSettings(): map<string, PyValue> {
    map[UserLanguageKey := StandardLanguage, DefaultLanguageKey := DefaultLanguage]
  }

  /** The settings file: absent, present but not parseable as JSON, or parsed. */
  datatype SettingsFile = Missing | Unparseable | Parsed(content: PyValue)

  /**
   * The loaded settings after the two defaulting steps: each language
   * entry that `.get` reports as `None` is set to its default, and
   * nothing else changes.
   */
  function Merged(settings: map<string, PyValue>): (r: map<string, PyValue>)
    ensures r.Keys == settings.Keys + {UserLanguageKey, DefaultLanguageKey}
    ensures r[UserLanguageKey] != PNone && r[DefaultLanguageKey] != PNone
    ensures forall k :: k in settings && settings[k] != PNone ==> r[k] == settings[k]
    ensures forall k :: k in settings && k != UserLanguageKey && k != DefaultLanguageKey ==> r[k] == settings[k]
    ensures GetIsNone(settings, UserLanguageKey) ==> r[UserLanguageKey] == StandardLanguage
    ensures GetIsNone(settings, DefaultLanguageKey) ==> r[DefaultLanguageKey] == DefaultLanguage
  {
    var withUser := if GetIsNone(settings, UserLanguageKey) then settings[UserLanguageKey := StandardLanguage] else settings;
    if GetIsNone(withUser, DefaultLanguageKey) then withUser[DefaultLanguageKey := DefaultLanguage] else withUser
  }

  /** Merging settings that were already merged changes nothing. */
  lemma MergedIdempotent(settings: map<string, PyValue>)
    ensures Merged(Merged(settings)) == Merged(settings)
  {
    var m := Merged(settings);
    assert !GetIsNone(m, UserLanguageKey) && !GetIsNone(m, DefaultLanguageKey);
  }

  /** The defaults are complete already: merging them gives them back. */
  lemma DefaultsAreMerged()
    ensures Merged(DefaultSettings()) == DefaultSettings()
  {
    var d := DefaultSettings();
    assert !GetIsNone(d, UserLanguageKey) && !GetIsNone(d, DefaultLanguageKey);
  }

  /** The settings `set_settings` returns, as a function of the file. */
  function Settings(file: SettingsFile): map<string, PyValue> {
    if file.Parsed? && file.content.PDict? then Merged(file.content.entries) else DefaultSettings()
  }

  /**
   * `set_settings`: a missing file gives the defaults (and is created
   * with them); a file that does not parse, or parses to something other
   * than an object (whose `.get` raises, caught by the same handler),
   * gives the defaults; an object is completed in place.
   */
  method SetSettings(file: SettingsFile) returns (settings: map<string, PyValue>)
    ensures settings == Settings(file)
    ensures UserLanguageKey in settings && settings[UserLanguageKey] != PNone
    ensures DefaultLanguageKey in settings && settings[DefaultLanguageKey] != PNone
  {
    if file.Missing? {
      return DefaultSettings();
    }
    if file.Unparseable? || !file.content.PDict? {
      return DefaultSettings();
    }
    settings := file.content.entries;
    if GetIsNone(settings, UserLanguageKey) {
      settings := settings[UserLanguageKey := StandardLanguage];
    }
    if GetIsNone(settings, DefaultLanguageKey) {
      settings := settings[DefaultLanguageKey := DefaultLanguage];
    }
  }
}
