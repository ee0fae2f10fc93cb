/**
 * The theme picker of the settings screen and `applyTheme`: the chosen
 * `AppearanceMode` is stored under "appearanceMode" as its raw string, and
 * `applyTheme` turns the stored string into the window's interface style.
 */
module Appearance {
  import opened Wrappers
  import opened Defaults

  const AppearanceKey := "appearanceMode"

  datatype AppearanceMode = System | Light | Dark

  /** The enum's raw value, the string kept in the store. */
  function RawValue(mode: AppearanceMode): string {
    match mode
    case System => "system"
    case Light => "light"
    case Dark => "dark"
  }

  /** `AppearanceMode(rawValue:)`: the case with that raw value, if any. */
  function FromRawValue(raw: string): (r: Option<AppearanceMode>)
    ensures r.Some? ==> RawValue(r.value) == raw
  {
    if raw == "system" then Some(System)
    else if raw == "light" then Some(Light)
    else if raw == "dark" then Some(Dark)
    else None
  }

  /** Raw values identify their cases. */
  lemma RawValueRoundTrip(mode: AppearanceMode)
    ensures FromRawValue(RawValue(mode)) == Some(mode)
  {
  }

  /** The mode the picker shows: the stored one, or `.system` when none or an unknown one is stored. */
  function StoredMode(store: map<string, string>): AppearanceMode {
    if AppearanceKey in store then FromRawValue(store[AppearanceKey]).GetOr(System) else System
  }

  /** A `UIUserInterfaceStyle` a window can be overridden with. */
  datatype InterfaceStyle = Unspecified | LightStyle | DarkStyle

  /** The style a mode stands for. */
  function StyleOf(mode: AppearanceMode): InterfaceStyle {
    match mode
    case System => Unspecified
    case Light => LightStyle
    case Dark => DarkStyle
  }

  /**
   * The new style `applyTheme` gives the window for the stored string
   * (nil reads as "system"); None where the switch falls to `default`
   * and leaves the window as it is.
   */
  function ThemeFor(stored: Option<string>): Option<InterfaceStyle> {
    match stored.GetOr("system")
    case "system" => Some(Unspecified)
    case "light" => Some(LightStyle)
    case "dark" => Some(DarkStyle)
    case _ => None
  }

  /** `applyTheme` and the picker agree: a stored mode gives that mode's style, nothing stored gives the system style. */
  lemma ThemeFollowsStoredMode(store: map<string, string>)
    ensures AppearanceKey !in store ==> ThemeFor(None) == Some(StyleOf(StoredMode(store)))
    ensures AppearanceKey in store && FromRawValue(store[AppearanceKey]).Some?
      ==> ThemeFor(Some(store[AppearanceKey])) == Some(StyleOf(StoredMode(store)))
  {
  }

  /** Exactly the strings that are no raw value leave the window unchanged. */
  lemma UnknownModeKeepsStyle(raw: string)
    ensures ThemeFor(Some(raw)).None? <==> FromRawValue(raw).None?
  {
  }

  /** The first window of the first connected scene. */
  class Window {
    var overrideUserInterfaceStyle: InterfaceStyle

    constructor ()
      ensures overrideUserInterfaceStyle == Unspecified
    {
      overrideUserInterfaceStyle := Unspecified;
    }
  }

  /**
   * `applyTheme`: without a window nothing happens; otherwise the window
   * takes the style for the stored string, unless the switch has no case for it.
   */
  method ApplyTheme(defaults: UserDefaults, window: Window?)
    modifies window
    ensures window != null && ThemeFor(defaults.StringForKey(AppearanceKey)).Some?
      ==> window.overrideUserInterfaceStyle == ThemeFor(defaults.StringForKey(AppearanceKey)).value
    ensures window != null && ThemeFor(defaults.StringForKey(AppearanceKey)).None?
      ==> window.overrideUserInterfaceStyle == old(window.overrideUserInterfaceStyle)
  {
    if window == null {
      return;
    }
    var stored := defaults.StringForKey(AppearanceKey);
    match stored.GetOr("system")
    case "system" => window.overrideUserInterfaceStyle := Unspecified;
    case "light" => window.overrideUserInterfaceStyle := LightStyle;
    case "dark" => window.overrideUserInterfaceStyle := DarkStyle;
    case _ =>
  }

  /**
   * The user picks `mode` in the theme picker, which shows the stored mode.
   * Only a different mode changes `appearanceMode`, and only a change runs
   * `onChange`: the raw value is stored and `applyTheme` sets the window to
   * its style. Picking the mode already shown writes nothing and applies nothing.
   */
  method SelectMode(defaults: UserDefaults, mode: AppearanceMode, window: Window?)
    modifies defaults, window
    ensures mode == old(StoredMode(defaults.entries)) ==> defaults.entries == old(defaults.entries)
    ensures mode == old(StoredMode(defaults.entries)) && window != null
      ==> window.overrideUserInterfaceStyle == old(window.overrideUserInterfaceStyle)
    ensures mode != old(StoredMode(defaults.entries))
      ==> defaults.entries == old(defaults.entries)[AppearanceKey := RawValue(mode)]
    ensures StoredMode(defaults.entries) == mode
    ensures mode != old(StoredMode(defaults.entries)) && window != null
      ==> window.overrideUserInterfaceStyle == StyleOf(mode)
  {
    if mode == StoredMode(defaults.entries) {
      return;
    }
    defaults.Set(RawValue(mode), AppearanceKey);
    ApplyTheme(defaults, window);
  }

  /**
   * The settings screen sees a new scene phase: becoming active re-runs
   * `applyTheme`; any other phase leaves the window as it is.
   */
  method ScenePhaseChanged(defaults: UserDefaults, active: bool, window: Window?)
    modifies window
    ensures !active && window != null ==> window.overrideUserInterfaceStyle == old(window.overrideUserInterfaceStyle)
    ensures active && window != null && ThemeFor(defaults.StringForKey(AppearanceKey)).Some?
      ==> window.overrideUserInterfaceStyle == ThemeFor(defaults.StringForKey(AppearanceKey)).value
    ensures active && window != null && ThemeFor(defaults.StringForKey(AppearanceKey)).None?
      ==> window.overrideUserInterfaceStyle == old(window.overrideUserInterfaceStyle)
  {
    if active {
      ApplyTheme(defaults, window);
    }
  }
}
