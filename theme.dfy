/** The light/dark preference (src/features/settings/ThemePreferenceProvider.tsx):
    the mode the user picks, its resolution against the system scheme, and
    the mode as the provider keeps and stores it. The system scheme and the
    stored text are inputs; the store is the `stored` field. */
module Theme {
  import opened Wrappers

  datatype ThemeMode = System | Light | Dark

  datatype Scheme = LightScheme | DarkScheme

  const STORAGE_KEY: string := "leanloop.themeMode"

  function ModeText(m: ThemeMode): string
  {
    match m
    case System => "system"
    case Light => "light"
    case Dark => "dark"
  }

  /** `systemResolved`: dark only when the system reports `dark`; no report,
      `light` or anything else is light. */
  function SystemResolved(system: Option<string>): (s: Scheme)
    ensures s == DarkScheme <==> system == Some("dark")
  {
    if system == Some("dark") then DarkScheme else LightScheme
  }

  /** `resolved`: an explicit mode wins, `system` follows the system. */
  function Resolve(mode: ThemeMode, system: Option<string>): (s: Scheme)
    ensures mode == Light ==> s == LightScheme
    ensures mode == Dark ==> s == DarkScheme
    ensures mode == System ==> s == SystemResolved(system)
  {
    match mode
    case System => SystemResolved(system)
    case Light => LightScheme
    case Dark => DarkScheme
  }

  /** Only under `system` does the system scheme matter. */
  lemma ResolveIgnoresSystem(mode: ThemeMode, a: Option<string>, b: Option<string>)
    ensures mode != System ==> Resolve(mode, a) == Resolve(mode, b)
    ensures mode == System ==> (Resolve(mode, Some("dark")) != Resolve(mode, Some("light")))
  {
  }

  /** The saved-value check of the load effect: exactly the three mode names. */
  function ParseMode(saved: Option<string>): (m: Option<ThemeMode>)
    ensures m.Some? <==> saved == Some("system") || saved == Some("light") || saved == Some("dark")
    ensures m.Some? ==> saved == Some(ModeText(m.value))
  {
    if saved == Some("system") then Some(System)
    else if saved == Some("light") then Some(Light)
    else if saved == Some("dark") then Some(Dark)
    else None
  }

  /** What is stored reads back as the same mode. */
  lemma StoredModeRoundTrip(m: ThemeMode)
    ensures ParseMode(Some(ModeText(m))) == Some(m)
  {
  }

  /** The provider's state: the mode and what the store holds under
      `STORAGE_KEY`. */
  class ThemePreference {
    var mode: ThemeMode
    var stored: Option<string>

    /** The initial mode is `system`; the store is as found. */
    constructor (found: Option<string>)
      ensures mode == System && stored == found
    {
      mode := System;
      stored := found;
    }

    /** The scheme the app is drawn in. */
    function Resolved(system: Option<string>): Scheme
      reads this
    {
      Resolve(mode, system)
    }

    /** The load effect: the stored text replaces the mode only when it
      names one. */
    method AdoptSaved()
      modifies this
      ensures mode == ParseMode(old(stored)).GetOr(old(mode))
      ensures stored == old(stored)
    {
      var saved := ParseMode(stored);
      if saved.Some? {
        mode := saved.value;
      }
    }

    /** `setMode`: the mode is set and stored. */
    method SetMode(m: ThemeMode)
      modifies this
      ensures mode == m && stored == Some(ModeText(m))
    {
      mode := m;
      stored := Some(ModeText(m));
    }
  }

  /** After `setMode(light)` or `setMode(dark)` the system scheme no longer
      matters, and the choice is the mode of the next start. */
  method ChoiceSurvivesRestart(pref: ThemePreference, m: ThemeMode, system: Option<string>)
    returns (next: ThemePreference)
    modifies pref
    ensures m != System ==> pref.Resolved(system) == Resolve(m, None)
    ensures next.mode == m
  {
    pref.SetMode(m);
    ResolveIgnoresSystem(m, system, None);
    next := new ThemePreference(pref.stored);
    next.AdoptSaved();
  }
}
