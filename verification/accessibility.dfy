/**
 The accessibility settings panel: a record of one font size (px) and six
 switches, single-setting updates, the zoom buttons and slider that keep the
 font size within 12..24 px, and the reset button. The effect on the page's
 document is left out; the optional change callback is modelled by what it
 receives.
 */
module Accessibility {
  import opened Options

  datatype Settings = Settings(
    fontSize: int,
    highContrast: bool,
    reducedMotion: bool,
    screenReader: bool,
    keyboardNavigation: bool,
    colorBlindSupport: bool,
    textToSpeech: bool)

  /** The six switch settings. */
  datatype Switch = HighContrast | ReducedMotion | ScreenReader | KeyboardNavigation | ColorBlindSupport | TextToSpeech

  /** A single-setting update: the key and a value of that key's type. */
  datatype Update = SetFontSize(px: int) | SetSwitch(key: Switch, on: bool)

  const MinFontSize: int := 12
  const MaxFontSize: int := 24
  /** How far one press of a zoom button moves the font size. */
  const ZoomStep: int := 2

  /** The value of a switch setting. */
  function SwitchValue(s: Settings, k: Switch): bool
  {
    match k
    case HighContrast => s.highContrast
    case ReducedMotion => s.reducedMotion
    case ScreenReader => s.screenReader
    case KeyboardNavigation => s.keyboardNavigation
    case ColorBlindSupport => s.colorBlindSupport
    case TextToSpeech => s.textToSpeech
  }

  /** The settings the panel starts with and resets to. */
  function DefaultSettings(): (s: Settings)
    ensures s.fontSize == 16
    ensures forall k :: !SwitchValue(s, k)
  {
    Settings(16, false, false, false, false, false, false)
  }

  /** Replaces the one setting named by the update. */
  function UpdateSetting(s: Settings, u: Update): (r: Settings)
    ensures u.SetFontSize? ==> r.fontSize == u.px && forall k :: SwitchValue(r, k) == SwitchValue(s, k)
    ensures u.SetSwitch? ==> r.fontSize == s.fontSize && SwitchValue(r, u.key) == u.on
    ensures u.SetSwitch? ==> forall k :: k != u.key ==> SwitchValue(r, k) == SwitchValue(s, k)
  {
    match u
    case SetFontSize(px) => s.(fontSize := px)
    case SetSwitch(key, on) =>
      match key
      case HighContrast => s.(highContrast := on)
      case ReducedMotion => s.(reducedMotion := on)
      case ScreenReader => s.(screenReader := on)
      case KeyboardNavigation => s.(keyboardNavigation := on)
      case ColorBlindSupport => s.(colorBlindSupport := on)
      case TextToSpeech => s.(textToSpeech := on)
  }

  /** Settings are determined by their font size and six switches. */
  lemma SettingsExtensional(s: Settings, t: Settings)
    requires s.fontSize == t.fontSize
    requires forall k :: SwitchValue(s, k) == SwitchValue(t, k)
    ensures s == t
  {
    assert SwitchValue(s, HighContrast) == SwitchValue(t, HighContrast);
    assert SwitchValue(s, ReducedMotion) == SwitchValue(t, ReducedMotion);
    assert SwitchValue(s, ScreenReader) == SwitchValue(t, ScreenReader);
    assert SwitchValue(s, KeyboardNavigation) == SwitchValue(t, KeyboardNavigation);
    assert SwitchValue(s, ColorBlindSupport) == SwitchValue(t, ColorBlindSupport);
    assert SwitchValue(s, TextToSpeech) == SwitchValue(t, TextToSpeech);
  }

  /** Writing back a value the setting already holds changes nothing, and a
      second write to the same setting overrides the first. */
  lemma UpdateSettingOverrides(s: Settings, u: Update, v: Update)
    requires u.SetFontSize? == v.SetFontSize?
    requires u.SetSwitch? ==> u.key == v.key
    ensures UpdateSetting(UpdateSetting(s, u), v) == UpdateSetting(s, v)
    ensures u.SetFontSize? && u.px == s.fontSize ==> UpdateSetting(s, u) == s
    ensures u.SetSwitch? && u.on == SwitchValue(s, u.key) ==> UpdateSetting(s, u) == s
  {
    if u.SetSwitch? && u.on == SwitchValue(s, u.key) {
      SettingsExtensional(UpdateSetting(s, u), s);
    }
    SettingsExtensional(UpdateSetting(UpdateSetting(s, u), v), UpdateSetting(s, v));
  }

  /** The zoom-out button: two pixels smaller, but never below 12. */
  function ZoomOut(s: Settings): (r: Settings)
    ensures r.fontSize >= MinFontSize
    ensures s.fontSize - ZoomStep >= MinFontSize ==> r.fontSize == s.fontSize - ZoomStep
    ensures s.fontSize - ZoomStep < MinFontSize ==> r.fontSize == MinFontSize
    ensures forall k :: SwitchValue(r, k) == SwitchValue(s, k)
  {
    UpdateSetting(s, SetFontSize(if s.fontSize - ZoomStep > MinFontSize then s.fontSize - ZoomStep else MinFontSize))
  }

  /** The zoom-in button: two pixels larger, but never above 24. */
  function ZoomIn(s: Settings): (r: Settings)
    ensures r.fontSize <= MaxFontSize
    ensures s.fontSize + ZoomStep <= MaxFontSize ==> r.fontSize == s.fontSize + ZoomStep
    ensures s.fontSize + ZoomStep > MaxFontSize ==> r.fontSize == MaxFontSize
    ensures forall k :: SwitchValue(r, k) == SwitchValue(s, k)
  {
    UpdateSetting(s, SetFontSize(if s.fontSize + ZoomStep < MaxFontSize then s.fontSize + ZoomStep else MaxFontSize))
  }

  /** The font-size slider reports values between its bounds 12 and 24 in
      steps of 1. */
  function SlideFontSize(s: Settings, value: int): (r: Settings)
    requires MinFontSize <= value <= MaxFontSize
    ensures r.fontSize == value
    ensures forall k :: SwitchValue(r, k) == SwitchValue(s, k)
  {
    UpdateSetting(s, SetFontSize(value))
  }

  /** The reset button. */
  function ResetSettings(s: Settings): (r: Settings)
    ensures r == DefaultSettings()
  {
    DefaultSettings()
  }

  /** Resetting is idempotent and yields a font size within the slider's range. */
  lemma ResetIdempotent(s: Settings)
    ensures ResetSettings(ResetSettings(s)) == ResetSettings(s)
    ensures InRange(ResetSettings(s))
  {
  }

  /** Zooming in and then out returns to the original size whenever the
      zoom-in was not clamped and the size was in range; zooming out and then
      in likewise. */
  lemma ZoomRoundTrip(s: Settings)
    ensures MinFontSize <= s.fontSize <= MaxFontSize - ZoomStep ==> ZoomOut(ZoomIn(s)) == s
    ensures MinFontSize + ZoomStep <= s.fontSize <= MaxFontSize ==> ZoomIn(ZoomOut(s)) == s
  {
    if MinFontSize <= s.fontSize <= MaxFontSize - ZoomStep {
      SettingsExtensional(ZoomOut(ZoomIn(s)), s);
    }
    if MinFontSize + ZoomStep <= s.fontSize <= MaxFontSize {
      SettingsExtensional(ZoomIn(ZoomOut(s)), s);
    }
  }

  /** The font size is within the slider's range. */
  predicate InRange(s: Settings)
  {
    MinFontSize <= s.fontSize <= MaxFontSize
  }

  /** What the user can do in the panel. */
  datatype Control = ZoomOutButton | ZoomInButton | Slider(value: int) | Toggle(key: Switch, on: bool) | ResetButton
  {
    /** The slider only reports values within its bounds. */
    predicate Admissible()
    {
      Slider? ==> MinFontSize <= value <= MaxFontSize
    }

    /** The control may change the font size (toggles never do). */
    predicate TouchesFontSize()
    {
      !Toggle?
    }
  }

  /** The panel's new settings and what the change callback received, if one
      was given. */
  datatype Change = Change(settings: Settings, notified: Option<Settings>)

  /** One control, with or without a change callback: every control goes
      through a settings replacement that is reported to the callback. */
  function Perform(s: Settings, c: Control, hasCallback: bool): (r: Change)
    requires c.Admissible()
    ensures hasCallback ==> r.notified == Some(r.settings)
    ensures !hasCallback ==> r.notified == None
    ensures c.ZoomOutButton? ==> r.settings == ZoomOut(s)
    ensures c.ZoomInButton? ==> r.settings == ZoomIn(s)
    ensures c.Slider? ==> r.settings == SlideFontSize(s, c.value)
    ensures c.Toggle? ==> r.settings == UpdateSetting(s, SetSwitch(c.key, c.on))
    ensures c.ResetButton? ==> r.settings == DefaultSettings()
  {
    var next :=
      match c
      case ZoomOutButton => ZoomOut(s)
      case ZoomInButton => ZoomIn(s)
      case Slider(v) => SlideFontSize(s, v)
      case Toggle(k, on) => UpdateSetting(s, SetSwitch(k, on))
      case ResetButton => ResetSettings(s);
    Change(next, if hasCallback then Some(next) else None)
  }

  /** Every control keeps the font size within 12..24. */
  lemma PerformKeepsInRange(s: Settings, c: Control, hasCallback: bool)
    requires InRange(s) && c.Admissible()
    ensures InRange(Perform(s, c, hasCallback).settings)
  {
  }

  /** The settings after a sequence of controls. */
  function PerformAll(s: Settings, cs: seq<Control>, hasCallback: bool): (r: Settings)
    requires forall i :: 0 <= i < |cs| ==> cs[i].Admissible()
    ensures |cs| > 0 && cs[|cs| - 1].ResetButton? ==> r == DefaultSettings()
    ensures (forall i :: 0 <= i < |cs| ==> !cs[i].TouchesFontSize()) ==> r.fontSize == s.fontSize
    decreases |cs|
  {
    if |cs| == 0 then s else PerformAll(Perform(s, cs[0], hasCallback).settings, cs[1..], hasCallback)
  }

  /** From the default settings, no sequence of zooms, slider moves, toggles
      and resets takes the font size out of 12..24. */
  lemma {:induction false} PerformAllKeepsInRange(s: Settings, cs: seq<Control>, hasCallback: bool)
    requires InRange(s)
    requires forall i :: 0 <= i < |cs| ==> cs[i].Admissible()
    ensures InRange(PerformAll(s, cs, hasCallback))
    decreases |cs|
  {
    if |cs| > 0 {
      PerformKeepsInRange(s, cs[0], hasCallback);
      PerformAllKeepsInRange(Perform(s, cs[0], hasCallback).settings, cs[1..], hasCallback);
    }
  }
}
