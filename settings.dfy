/**
  * components/settings/settings-panel.tsx: the settings form. It holds a
  * working copy of the settings and a `hasChanges` flag, falls back to the
  * default for an empty or zero numeric input, writes to storage on save
  * and on reset, and shows the goal's minutes of focused work.
  */
module SettingsForm {

  import opened Options
  import opened Domain
  import opened Text
  import Store
  import StatsDisplay

  /** The panel's own `DEFAULT_SETTINGS`. */
  const PanelDefaults: Settings := Settings(
    workDuration := 25,
    shortBreakDuration := 5,
    longBreakDuration := 15,
    sessionsUntilLongBreak := 4,
    autoStartBreaks := false,
    autoStartWork := false,
    notifications := true,
    soundVolume := 0.5,
    notificationVolume := 0.7,
    autoCompleteTask := false,
    darkMode := false,
    showTaskEstimation := true,
    focusAudio := "none",
    breakAudio := "none",
    notificationAudio := "notification-ping",
    usePlaylistForLofi := true,
    dailySessionGoal := 8)

  // ---------------------------------------------------------------------
  // Numeric inputs
  // ---------------------------------------------------------------------

  /** The longest run of digits at the start of `s`. */
  function DigitPrefix(s: string): (r: string)
    ensures |r| <= |s| && r == s[..|r|]
    ensures forall i :: 0 <= i < |r| ==> IsDigit(r[i])
    ensures |r| < |s| ==> !IsDigit(s[|r|])
    decreases |s|
  {
    if s != [] && IsDigit(s[0]) then [s[0]] + DigitPrefix(s[1..]) else []
  }

  /**
    * `parseInt(s)` in base ten: leading white space, an optional sign, then
    * the digits up to the first other character; no digit at all is `NaN`.
    * The `0x` prefix that `parseInt` would read as hexadecimal never comes
    * from a number input, so it is not modelled.
    */
  function ParseInt(s: string): (r: Option<int>)
    ensures r.None? <==> DigitPrefix(Unsigned(TrimStart(s))) == []
  {
    var t := TrimStart(s);
    var digits := DigitPrefix(Unsigned(t));
    if digits == [] then None
    else
      var magnitude: int := DigitsValue(digits);
      if t[0] == '-' then Some(-magnitude) else Some(magnitude)
  }

  /** The text after a leading sign. */
  function Unsigned(t: string): string
  {
    if t != [] && (t[0] == '-' || t[0] == '+') then t[1..] else t
  }

  /**
    * `parseInt(value) || fallback`: a value that is not a number, or is
    * zero, gives the fallback.
    */
  function NumberInput(value: string, fallback: int): (v: int)
    ensures ParseInt(value).None? ==> v == fallback
    ensures ParseInt(value) == Some(0) ==> v == fallback
    ensures ParseInt(value).Some? && ParseInt(value).value != 0 ==> v == ParseInt(value).value
    ensures fallback != 0 ==> v != 0
  {
    var parsed := ParseInt(value);
    if parsed.None? || parsed.value == 0 then fallback else parsed.value
  }

  /**
    * Typing a number as its digits sets it, typing 0 or clearing the box
    * sets the fallback.
    */
  lemma NumberInputReadsDigits(n: nat, fallback: int)
    ensures NumberInput(NatToString(n), fallback) == if n == 0 then fallback else n
    ensures NumberInput("", fallback) == fallback
  {
    var s := NatToString(n);
    assert !IsSpace(s[0]) by {
      assert IsDigit(s[0]);
    }
    assert TrimStart(s) == s;
    assert Unsigned(s) == s;
    AllDigitsPrefix(s);
    NatToStringRoundTrip(n);
  }

  lemma {:induction false} AllDigitsPrefix(s: string)
    requires forall i :: 0 <= i < |s| ==> IsDigit(s[i])
    ensures DigitPrefix(s) == s
    decreases |s|
  {
    if s != [] {
      AllDigitsPrefix(s[1..]);
    }
  }

  /** The fallbacks of the five numeric inputs. */
  const WorkFallback: int := 25
  const ShortBreakFallback: int := 5
  const LongBreakFallback: int := 15
  const CadenceFallback: int := 4
  const GoalFallback: int := 8

  // ---------------------------------------------------------------------
  // Keys and values
  // ---------------------------------------------------------------------

  /** `keyof Settings`. */
  datatype SettingKey =
    | WorkDuration | ShortBreakDuration | LongBreakDuration | SessionsUntilLongBreak
    | AutoStartBreaks | AutoStartWork | Notifications | SoundVolume | NotificationVolume
    | AutoCompleteTask | DarkMode | ShowTaskEstimation | FocusAudio | BreakAudio
    | NotificationAudio | UsePlaylistForLofi | DailySessionGoal

  /** A setting's value, by its type. */
  datatype SettingValue = Whole(n: int) | Flag(b: bool) | Level(x: real) | Name(s: string)

  /** `settings[key]`. */
  function Field(s: Settings, k: SettingKey): SettingValue
  {
    match k
    case WorkDuration => Whole(s.workDuration)
    case ShortBreakDuration => Whole(s.shortBreakDuration)
    case LongBreakDuration => Whole(s.longBreakDuration)
    case SessionsUntilLongBreak => Whole(s.sessionsUntilLongBreak)
    case AutoStartBreaks => Flag(s.autoStartBreaks)
    case AutoStartWork => Flag(s.autoStartWork)
    case Notifications => Flag(s.notifications)
    case SoundVolume => Level(s.soundVolume)
    case NotificationVolume => Level(s.notificationVolume)
    case AutoCompleteTask => Flag(s.autoCompleteTask)
    case DarkMode => Flag(s.darkMode)
    case ShowTaskEstimation => Flag(s.showTaskEstimation)
    case FocusAudio => Name(s.focusAudio)
    case BreakAudio => Name(s.breakAudio)
    case NotificationAudio => Name(s.notificationAudio)
    case UsePlaylistForLofi => Flag(s.usePlaylistForLofi)
    case DailySessionGoal => Whole(s.dailySessionGoal)
  }

  /** The value has the type of the key's field. */
  predicate Fits(k: SettingKey, v: SettingValue)
  {
    match k
    case WorkDuration | ShortBreakDuration | LongBreakDuration | SessionsUntilLongBreak | DailySessionGoal => v.Whole?
    case SoundVolume | NotificationVolume => v.Level?
    case FocusAudio | BreakAudio | NotificationAudio => v.Name?
    case _ => v.Flag?
  }

  /** `{ ...s, [key]: value }`. */
  function With(s: Settings, k: SettingKey, v: SettingValue): Settings
    requires Fits(k, v)
  {
    match k
    case WorkDuration => s.(workDuration := v.n)
    case ShortBreakDuration => s.(shortBreakDuration := v.n)
    case LongBreakDuration => s.(longBreakDuration := v.n)
    case SessionsUntilLongBreak => s.(sessionsUntilLongBreak := v.n)
    case AutoStartBreaks => s.(autoStartBreaks := v.b)
    case AutoStartWork => s.(autoStartWork := v.b)
    case Notifications => s.(notifications := v.b)
    case SoundVolume => s.(soundVolume := v.x)
    case NotificationVolume => s.(notificationVolume := v.x)
    case AutoCompleteTask => s.(autoCompleteTask := v.b)
    case DarkMode => s.(darkMode := v.b)
    case ShowTaskEstimation => s.(showTaskEstimation := v.b)
    case FocusAudio => s.(focusAudio := v.s)
    case BreakAudio => s.(breakAudio := v.s)
    case NotificationAudio => s.(notificationAudio := v.s)
    case UsePlaylistForLofi => s.(usePlaylistForLofi := v.b)
    case DailySessionGoal => s.(dailySessionGoal := v.n)
  }

  /** Setting a key gives it the new value and leaves every other key as it was. */
  lemma WithOnlyKey(s: Settings, k: SettingKey, v: SettingValue)
    requires Fits(k, v)
    ensures Field(With(s, k, v), k) == v
    ensures forall j :: j != k ==> Field(With(s, k, v), j) == Field(s, j)
  {
  }

  /** The panel's defaults are the store's defaults. */
  lemma PanelDefaultsAreStoreDefaults()
    ensures PanelDefaults == Store.DefaultSettings
    ensures forall k :: Field(PanelDefaults, k) == Field(Store.DefaultSettings, k)
  {
  }

  // ---------------------------------------------------------------------
  // Derived text and flags
  // ---------------------------------------------------------------------

  /** The focused-work line: the goal's sessions times the work length, as hours and minutes. */
  function FocusedWork(s: Settings): (r: string)
    ensures |r| >= 2 && r[|r| - 1] == 'm'
    ensures 0 <= s.dailySessionGoal * s.workDuration < 60 ==> r == NatToString(s.dailySessionGoal * s.workDuration) + "m"
  {
    StatsDisplay.FormatTime(s.dailySessionGoal * s.workDuration)
  }

  /** With the defaults, eight sessions of 25 minutes read as three hours and twenty minutes. */
  lemma DefaultFocusedWork()
    ensures FocusedWork(PanelDefaults) == "3h 20m"
  {
    assert 200 / 60 == 3 && 200 % 60 == 20;
    assert NatToString(3) == "3";
    assert NatToString(20) == NatToString(2) + "0";
  }

  /** `hasAudioEnabled`: some audio choice is not `none`. */
  predicate HasAudioEnabled(s: Settings)
  {
    s.focusAudio != "none" || s.breakAudio != "none" || s.notificationAudio != "none"
  }

  /** The defaults play the notification sound, so audio counts as enabled. */
  lemma DefaultsHaveAudio()
    ensures HasAudioEnabled(PanelDefaults)
    ensures !HasAudioEnabled(PanelDefaults.(notificationAudio := "none"))
  {
    assert PanelDefaults.notificationAudio[0] == 'n' && PanelDefaults.notificationAudio[4] == 'f';
  }

  // ---------------------------------------------------------------------
  // The panel
  // ---------------------------------------------------------------------

  class SettingsPanel {
    const store: Store.LocalStore
    var settings: Settings
    var hasChanges: bool

    constructor (s: Store.LocalStore)
      ensures store == s && settings == PanelDefaults && !hasChanges
    {
      store := s;
      settings := PanelDefaults;
      hasChanges := false;
    }

    /** The mount effect: the working copy is the stored settings. */
    method Load()
      modifies this
      ensures settings == store.GetSettings() && hasChanges == old(hasChanges)
    {
      settings := store.GetSettings();
    }

    /** `handleSettingChange(key, value)`: only that key changes, and the form has changes. */
    method HandleSettingChange(key: SettingKey, value: SettingValue)
      requires Fits(key, value)
      modifies this
      ensures settings == With(old(settings), key, value) && hasChanges
      ensures Field(settings, key) == value
      ensures forall j :: j != key ==> Field(settings, j) == Field(old(settings), j)
    {
      WithOnlyKey(settings, key, value);
      settings := With(settings, key, value);
      hasChanges := true;
    }

    /** A numeric box's `onChange` for `key`, with its fallback. */
    method HandleNumberInput(key: SettingKey, input: string, fallback: int)
      requires key in {WorkDuration, ShortBreakDuration, LongBreakDuration, SessionsUntilLongBreak, DailySessionGoal}
      modifies this
      ensures settings == With(old(settings), key, Whole(NumberInput(input, fallback))) && hasChanges
      ensures fallback != 0 ==> Field(settings, key) != Whole(0)
    {
      HandleSettingChange(key, Whole(NumberInput(input, fallback)));
    }

    /** `saveSettings`: the working copy is stored, and the form is clean. */
    method SaveSettings()
      modifies this, store
      ensures store.GetSettings() == settings == old(settings) && !hasChanges
      ensures store.OnlyChanged(Store.SettingsKey)
    {
      store.SaveSettings(settings);
      hasChanges := false;
    }

    /** The `saveSettings` event from the parent: stored only when the form has changes. */
    method OnSaveRequest()
      modifies this, store
      ensures old(hasChanges) ==> store.GetSettings() == settings && store.OnlyChanged(Store.SettingsKey)
      ensures !old(hasChanges) ==> unchanged(store)
      ensures settings == old(settings) && !hasChanges
    {
      if hasChanges {
        SaveSettings();
      }
    }

    /** `resetSettings`: the defaults, in the form and in storage, and the form is clean. */
    method ResetSettings()
      modifies this, store
      ensures settings == PanelDefaults && store.GetSettings() == Store.DefaultSettings && !hasChanges
      ensures store.OnlyChanged(Store.SettingsKey)
    {
      settings := PanelDefaults;
      store.SaveSettings(PanelDefaults);
      PanelDefaultsAreStoreDefaults();
      hasChanges := false;
    }

    /**
      * A `settingsUpdated` event from elsewhere: each field the event carries
      * replaces the working one. When the record is already the same it is
      * kept, which is the same record.
      */
    method OnSettingsUpdated(detail: Store.PartialSettings)
      modifies this
      ensures settings == Store.MergeSettings(old(settings), detail) && hasChanges == old(hasChanges)
    {
      if Store.AllFields(settings) != detail {
        settings := Store.MergeSettings(settings, detail);
      } else {
        assert Store.MergeSettings(settings, detail) == settings;
      }
    }

    /** A volume change from the audio service. */
    method OnVolumeChange(newVolume: real)
      modifies this
      ensures settings == old(settings).(soundVolume := newVolume) && hasChanges == old(hasChanges)
    {
      settings := settings.(soundVolume := newVolume);
    }
  }
}
