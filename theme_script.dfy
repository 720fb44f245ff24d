/**
 * The theme script the plugin emits into every page: the `DLT` object and the
 * `window.DarkLightToggle` API over it. The `enable_auto_detect` setting is a
 * parameter fixed when the script is generated; only the exact value `yes`
 * turns on system-preference detection.
 *
 * The state the script touches is the `data-theme` attribute of the document
 * element (absent or a string), the origin's local storage (a map, of which
 * only the key `dlt-theme` is used) and the `dltThemeChanged` events it
 * dispatches (the sequence of their `detail.theme` values). Whether a storage
 * access throws, whether `window.matchMedia` exists and what it reports are
 * parameters of the operations that consult them.
 */
module ThemeScript {
  import opened Options

  const StorageKey := "dlt-theme"
  const Dark := "dark"
  const Light := "light"

  predicate AutoDetectOn(flag: string)
  {
    flag == "yes"
  }

  /** JavaScript truthiness of `getItem`'s result: null and "" are falsy. */
  predicate IsSet(saved: Option<string>)
  {
    saved.Some? && saved.value != ""
  }

  /** `getSavedTheme`: the stored string, or null when there is none or the read throws. */
  function SavedTheme(storage: map<string, string>, readOk: bool): (r: Option<string>)
    ensures !readOk ==> r == None
    ensures readOk ==> (r.Some? <==> StorageKey in storage)
    ensures r.Some? ==> r.value == storage[StorageKey]
  {
    if readOk && StorageKey in storage then Some(storage[StorageKey]) else None
  }

  /** The storage after `saveTheme`: a failing write leaves it as it was. */
  function StorageAfterSave(storage: map<string, string>, theme: string, writeOk: bool): (r: map<string, string>)
    ensures SavedTheme(r, true) == if writeOk then Some(theme) else SavedTheme(storage, true)
    ensures r.Keys == storage.Keys + (if writeOk then {StorageKey} else {})
    ensures forall k :: k in storage && k != StorageKey ==> r[k] == storage[k]
  {
    if writeOk then storage[StorageKey := theme] else storage
  }

  /**
   * `getDefaultTheme` in the variant the flag selects: with auto-detect the
   * system preference (a missing `matchMedia` counts as light), else light.
   */
  function DefaultTheme(flag: string, hasMatchMedia: bool, prefersDark: bool): (t: string)
    ensures t == Dark <==> AutoDetectOn(flag) && hasMatchMedia && prefersDark
    ensures t == Light <==> !(AutoDetectOn(flag) && hasMatchMedia && prefersDark)
  {
    if AutoDetectOn(flag) then
      (if hasMatchMedia && prefersDark then Dark else Light)
    else Light
  }

  /** `savedTheme || defaultTheme`: any non-empty saved string wins, unchecked. */
  function ChooseTheme(saved: Option<string>, default: string): (t: string)
    ensures IsSet(saved) ==> t == saved.value
    ensures !IsSet(saved) ==> t == default
  {
    if IsSet(saved) then saved.value else default
  }

  /** The theme `loadTheme` applies. */
  function InitialTheme(storage: map<string, string>, readOk: bool, flag: string, hasMatchMedia: bool, prefersDark: bool): (t: string)
    ensures readOk && StorageKey in storage && storage[StorageKey] != "" ==> t == storage[StorageKey]
    ensures !(readOk && StorageKey in storage && storage[StorageKey] != "") ==> t == DefaultTheme(flag, hasMatchMedia, prefersDark)
  {
    ChooseTheme(SavedTheme(storage, readOk), DefaultTheme(flag, hasMatchMedia, prefersDark))
  }

  /** `toggleTheme`'s new theme: light from dark, dark from anything else. */
  function Toggled(current: Option<string>): (t: string)
    ensures t == Light <==> current == Some(Dark)
    ensures t == Dark <==> current != Some(Dark)
  {
    if current == Some(Dark) then Light else Dark
  }

  lemma ToggleTwice(current: Option<string>)
    ensures current == Some(Light) || current == Some(Dark) ==> Toggled(Some(Toggled(current))) == current.value
    ensures current != Some(Dark) ==> Toggled(Some(Toggled(current))) == Light
  {
  }

  /** Resolution precedence: an explicit saved choice beats the system preference. */
  lemma SavedChoiceWins(storage: map<string, string>, flag: string, hasMatchMedia: bool, prefersDark: bool)
    requires StorageKey in storage && storage[StorageKey] != ""
    ensures InitialTheme(storage, true, flag, hasMatchMedia, prefersDark) == storage[StorageKey]
  {
  }

  /** Without a saved choice the theme follows the system only when auto-detect is `yes`. */
  lemma UnsavedFollowsDefault(storage: map<string, string>, readOk: bool, flag: string, hasMatchMedia: bool, prefersDark: bool)
    requires !IsSet(SavedTheme(storage, readOk))
    ensures InitialTheme(storage, readOk, flag, hasMatchMedia, prefersDark) == DefaultTheme(flag, hasMatchMedia, prefersDark)
    ensures AutoDetectOn(flag) && hasMatchMedia ==> InitialTheme(storage, readOk, flag, hasMatchMedia, prefersDark) == (if prefersDark then Dark else Light)
    ensures !AutoDetectOn(flag) ==> InitialTheme(storage, readOk, flag, hasMatchMedia, prefersDark) == Light
  {
  }

  /** A successful save is what the next page load reads and applies. */
  lemma SaveThenReload(storage: map<string, string>, theme: string, flag: string, hasMatchMedia: bool, prefersDark: bool)
    requires theme != ""
    ensures SavedTheme(StorageAfterSave(storage, theme, true), true) == Some(theme)
    ensures InitialTheme(StorageAfterSave(storage, theme, true), true, flag, hasMatchMedia, prefersDark) == theme
  {
  }

  /** The `DLT` object: its page state and its methods. */
  class Dlt {
    const autoDetect: string
    var theme: Option<string>
    var storage: map<string, string>
    var events: seq<string>
    var listening: bool

    /** The page before the script runs. */
    constructor (autoDetect: string, theme: Option<string>, storage: map<string, string>)
      ensures this.autoDetect == autoDetect && this.theme == theme && this.storage == storage
      ensures events == [] && !listening
    {
      this.autoDetect := autoDetect;
      this.theme := theme;
      this.storage := storage;
      events := [];
      listening := false;
    }

    /** `init`: load the theme, then install the preference listener when auto-detect is `yes`. */
    method Init(readOk: bool, hasMatchMedia: bool, prefersDark: bool)
      modifies this`theme, this`listening
      ensures theme == Some(InitialTheme(storage, readOk, autoDetect, hasMatchMedia, prefersDark))
      ensures listening == (old(listening) || (AutoDetectOn(autoDetect) && hasMatchMedia))
    {
      LoadTheme(readOk, hasMatchMedia, prefersDark);
      if autoDetect == "yes" {
        WatchSystemPreference(hasMatchMedia);
      }
    }

    /** `toggleTheme`: apply the inverse theme, save it and announce it. */
    method ToggleTheme(writeOk: bool)
      modifies this`theme, this`storage, this`events
      ensures theme == Some(Toggled(old(theme)))
      ensures storage == StorageAfterSave(old(storage), Toggled(old(theme)), writeOk)
      ensures events == old(events) + [Toggled(old(theme))]
    {
      var currentTheme := theme;
      var newTheme := if currentTheme == Some(Dark) then Light else Dark;
      SetTheme(newTheme);
      SaveTheme(newTheme, writeOk);
      DispatchThemeEvent(newTheme);
    }

    /** The internal `setTheme`: writes the attribute and nothing else. */
    method SetTheme(t: string)
      modifies this`theme
      ensures theme == Some(t)
    {
      theme := Some(t);
    }

    /** `saveTheme`: a write that throws is swallowed and leaves the storage unchanged. */
    method SaveTheme(t: string, writeOk: bool)
      modifies this`storage
      ensures storage == StorageAfterSave(old(storage), t, writeOk)
    {
      if writeOk {
        storage := storage[StorageKey := t];
      }
    }

    /** `loadTheme`: the saved theme if it is set, else the default. */
    method LoadTheme(readOk: bool, hasMatchMedia: bool, prefersDark: bool)
      modifies this`theme
      ensures theme == Some(InitialTheme(storage, readOk, autoDetect, hasMatchMedia, prefersDark))
    {
      var savedTheme := GetSavedTheme(readOk);
      var defaultTheme := GetDefaultTheme(hasMatchMedia, prefersDark);
      var t := if savedTheme.Some? && savedTheme.value != "" then savedTheme.value else defaultTheme;
      SetTheme(t);
    }

    /** `getSavedTheme`: null when nothing is stored or the read throws. */
    method GetSavedTheme(readOk: bool) returns (saved: Option<string>)
      ensures saved == SavedTheme(storage, readOk)
    {
      if !readOk {
        saved := None;
      } else if StorageKey in storage {
        saved := Some(storage[StorageKey]);
      } else {
        saved := None;
      }
    }

    /** `getDefaultTheme` of the generated variant. */
    method GetDefaultTheme(hasMatchMedia: bool, prefersDark: bool) returns (t: string)
      ensures t == DefaultTheme(autoDetect, hasMatchMedia, prefersDark)
    {
      if autoDetect == "yes" {
        var darkPreferred := hasMatchMedia && prefersDark;
        t := if darkPreferred then Dark else Light;
      } else {
        t := Light;
      }
    }

    /** `watchSystemPreference`: installs the change listener when `matchMedia` exists. */
    method WatchSystemPreference(hasMatchMedia: bool)
      modifies this`listening
      ensures listening == (old(listening) || hasMatchMedia)
    {
      if hasMatchMedia {
        listening := true;
      }
    }

    /**
     * A `prefers-color-scheme` change event. It reaches the script only when
     * the listener is installed, and then changes the theme only when no
     * theme is saved; it never writes storage.
     */
    method OnSystemPreferenceChange(matchesDark: bool, readOk: bool)
      modifies this`theme, this`events
      ensures listening && !IsSet(SavedTheme(storage, readOk)) ==>
        theme == Some(if matchesDark then Dark else Light) &&
        events == old(events) + [if matchesDark then Dark else Light]
      ensures !(listening && !IsSet(SavedTheme(storage, readOk))) ==>
        theme == old(theme) && events == old(events)
    {
      if listening {
        var saved := GetSavedTheme(readOk);
        if !(saved.Some? && saved.value != "") {
          var t := if matchesDark then Dark else Light;
          SetTheme(t);
          DispatchThemeEvent(t);
        }
      }
    }

    /** `dispatchThemeEvent`: one `dltThemeChanged` event carrying the theme. */
    method DispatchThemeEvent(t: string)
      modifies this`events
      ensures events == old(events) + [t]
    {
      events := events + [t];
    }
  }

  /** `window.DarkLightToggle`: the public API over the page's `DLT` object. */
  class DarkLightToggle {
    const dlt: Dlt

    constructor (dlt: Dlt)
      ensures this.dlt == dlt
    {
      this.dlt := dlt;
    }

    /** `toggle`: the same as a click on the toggle button. */
    method Toggle(writeOk: bool)
      modifies dlt`theme, dlt`storage, dlt`events
      ensures dlt.theme == Some(Toggled(old(dlt.theme)))
      ensures dlt.storage == StorageAfterSave(old(dlt.storage), Toggled(old(dlt.theme)), writeOk)
      ensures dlt.events == old(dlt.events) + [Toggled(old(dlt.theme))]
    {
      dlt.ToggleTheme(writeOk);
    }

    /** `setTheme`: applies, saves and announces any string, unvalidated. */
    method SetTheme(t: string, writeOk: bool)
      modifies dlt`theme, dlt`storage, dlt`events
      ensures dlt.theme == Some(t)
      ensures dlt.storage == StorageAfterSave(old(dlt.storage), t, writeOk)
      ensures SavedTheme(dlt.storage, true) == if writeOk then Some(t) else SavedTheme(old(dlt.storage), true)
      ensures dlt.events == old(dlt.events) + [t]
    {
      dlt.SetTheme(t);
      dlt.SaveTheme(t, writeOk);
      dlt.DispatchThemeEvent(t);
    }

    /** `getTheme`: the attribute as it is now. */
    method GetTheme() returns (t: Option<string>)
      ensures t == dlt.theme
    {
      t := dlt.theme;
    }
  }

  /** Applying the same theme twice leaves the same page state as applying it once. */
  method SetThemeIdempotent(d: Dlt, t: string)
    modifies d`theme
    ensures d.theme == Some(t)
  {
    d.SetTheme(t);
    ghost var once := d.theme;
    d.SetTheme(t);
    assert d.theme == once;
  }

  /** From light, two toggles give dark then light, with one event each. */
  method ToggleFromLight(d: Dlt, writeOk: bool)
    requires d.theme == Some(Light)
    modifies d`theme, d`storage, d`events
    ensures d.theme == Some(Light)
    ensures d.events == old(d.events) + [Dark, Light]
    ensures writeOk ==> SavedTheme(d.storage, true) == Some(Light)
  {
    d.ToggleTheme(writeOk);
    assert d.theme == Some(Dark) && d.events == old(d.events) + [Dark];
    d.ToggleTheme(writeOk);
  }

  /** `setTheme('dark')` then `getTheme()` gives dark, and a reload with working storage applies dark. */
  method SetThenReload(api: DarkLightToggle, hasMatchMedia: bool, prefersDark: bool)
    modifies api.dlt`theme, api.dlt`storage, api.dlt`events
    ensures api.dlt.theme == Some(Dark)
    ensures InitialTheme(api.dlt.storage, true, api.dlt.autoDetect, hasMatchMedia, prefersDark) == Dark
  {
    api.SetTheme(Dark, true);
    var t := api.GetTheme();
    assert t == Some(Dark);
  }
}
