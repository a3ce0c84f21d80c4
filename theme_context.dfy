/** The theme store of `ThemeProvider`: one dark-mode flag, the palette it
    selects, and its persistence under one key of the device's key-value
    storage. */
module ThemeContext {
  import opened Base

  /** The nine named colours every screen reads. */
  datatype Palette = Palette(
    background: string, surface: string, text: string, textSecondary: string,
    primary: string, border: string, error: string, success: string, warning: string)

  const LightColors := Palette("#F7FAFC", "#FFFFFF", "#1A202C", "#718096", "#667eea",
                               "#E2E8F0", "#E53E3E", "#38A169", "#F6AD55")
  const DarkColors := Palette("#1A202C", "#2D3748", "#FFFFFF", "#A0AEC0", "#667eea",
                              "#4A5568", "#FC8181", "#68D391", "#F6AD55")

  /** `isDarkMode ? darkColors : lightColors`: the accent and warning colours
      are the same in both modes, and the dark palette is in use exactly
      when the flag is set. */
  function Colors(isDarkMode: bool): (p: Palette)
    ensures p.primary == "#667eea" && p.warning == "#F6AD55"
    ensures p == DarkColors <==> isDarkMode
    ensures p == LightColors <==> !isDarkMode
  {
    if isDarkMode then DarkColors else LightColors
  }

  /** The storage key the flag is kept under. */
  const DarkModeKey := "darkMode"

  /** `JSON.stringify(flag)` */
  function Stringify(b: bool): string {
    if b then "true" else "false"
  }

  /** `JSON.parse(text)` for a stored flag: the two boolean texts, and
      `None` for any other text. */
  function ParseFlag(text: string): (r: Option<bool>)
    ensures r.Some? <==> text == Stringify(true) || text == Stringify(false)
    ensures r.Some? ==> Stringify(r.value) == text
  {
    if text == "true" then Some(true) else if text == "false" then Some(false) else None
  }

  /** The flag together with what the storage holds. */
  datatype ThemeState = ThemeState(isDarkMode: bool, storage: map<string, string>)

  /** `toggleDarkMode()`: the flag is negated first; the new value is then
      written under the key unless the write fails, in which case the flag
      stays negated. No other key is touched. */
  function Toggled(s: ThemeState, writeFails: bool): (t: ThemeState)
    ensures t.isDarkMode == !s.isDarkMode
    ensures writeFails ==> t.storage == s.storage
    ensures !writeFails ==> DarkModeKey in t.storage && ParseFlag(t.storage[DarkModeKey]) == Some(t.isDarkMode)
    ensures t.storage.Keys <= s.storage.Keys + {DarkModeKey}
    ensures forall k :: k in s.storage && k != DarkModeKey ==> k in t.storage && t.storage[k] == s.storage[k]
  {
    var flag := !s.isDarkMode;
    ThemeState(flag, if writeFails then s.storage else s.storage[DarkModeKey := Stringify(flag)])
  }

  /** `loadThemeFromStorage()`: a stored flag replaces the current one;
      nothing stored, an unreadable value or a failed read leaves it. */
  function Loaded(s: ThemeState, readFails: bool): (t: ThemeState)
    ensures t.storage == s.storage
    ensures readFails || DarkModeKey !in s.storage ==> t.isDarkMode == s.isDarkMode
    ensures !readFails && DarkModeKey in s.storage ==>
      t.isDarkMode == ParseFlag(s.storage[DarkModeKey]).GetOr(s.isDarkMode)
  {
    if readFails || DarkModeKey !in s.storage then s
    else
      match ParseFlag(s.storage[DarkModeKey])
      case Some(b) => s.(isDarkMode := b)
      case None => s
  }

  /** Toggling twice restores the flag, whether or not the writes succeed. */
  lemma ToggleTwice(s: ThemeState, fails1: bool, fails2: bool)
    ensures Toggled(Toggled(s, fails1), fails2).isDarkMode == s.isDarkMode
  {
  }

  /** A toggle whose write succeeds survives a reload: loading what it
      stored gives back the flag it set, from any starting flag. */
  lemma ToggleThenLoad(s: ThemeState, flag: bool)
    ensures Loaded(Toggled(s, false).(isDarkMode := flag), false) == Toggled(s, false)
  {
    var t := Toggled(s, false);
    assert t.storage[DarkModeKey] == Stringify(t.isDarkMode);
  }

  /** A toggle whose write fails is undone by the next load when an earlier
      value was stored: the display and the storage then disagree until it. */
  lemma FailedToggleLost(s: ThemeState)
    requires DarkModeKey in s.storage && ParseFlag(s.storage[DarkModeKey]) == Some(s.isDarkMode)
    ensures Toggled(s, true).isDarkMode != s.isDarkMode
    ensures Loaded(Toggled(s, true), false).isDarkMode == s.isDarkMode
  {
  }

  /** The device's key-value storage; a call to it may fail, which the
      caller only learns as a rejection. */
  class KeyValueStorage {
    var entries: map<string, string>

    constructor (initial: map<string, string>)
      ensures entries == initial
    {
      entries := initial;
    }

    /** `setItem(key, value)` */
    method SetItem(key: string, value: string, fails: bool) returns (ok: bool)
      modifies this
      ensures ok == !fails
      ensures fails ==> entries == old(entries)
      ensures !fails ==> entries == old(entries)[key := value]
    {
      if fails {
        return false;
      }
      entries := entries[key := value];
      ok := true;
    }

    /** `getItem(key)`: `None` when the key is absent; `ok` is false when the
        read fails. */
    method GetItem(key: string, fails: bool) returns (ok: bool, value: Option<string>)
      ensures ok == !fails
      ensures ok && key in entries ==> value == Some(entries[key])
      ensures ok && key !in entries ==> value.None?
      ensures !ok ==> value.None?
    {
      if fails {
        return false, None;
      }
      ok := true;
      value := if key in entries then Some(entries[key]) else None;
    }
  }

  class ThemeStore {
    var isDarkMode: bool

    /** The provider mounts in light mode. */
    constructor ()
      ensures !isDarkMode
    {
      isDarkMode := false;
    }

    /** The palette the screens read. */
    function CurrentColors(): Palette
      reads this
    {
      Colors(isDarkMode)
    }

    method ToggleDarkMode(storage: KeyValueStorage, writeFails: bool)
      modifies this, storage
      ensures ThemeState(isDarkMode, storage.entries) == Toggled(ThemeState(old(isDarkMode), old(storage.entries)), writeFails)
    {
      var newMode := !isDarkMode;
      isDarkMode := newMode;
      var written := storage.SetItem(DarkModeKey, Stringify(newMode), writeFails);
    }

    method LoadThemeFromStorage(storage: KeyValueStorage, readFails: bool)
      modifies this
      ensures ThemeState(isDarkMode, storage.entries) == Loaded(ThemeState(old(isDarkMode), storage.entries), readFails)
    {
      var ok, saved := storage.GetItem(DarkModeKey, readFails);
      if ok && saved.Some? {
        var parsed := ParseFlag(saved.value);
        if parsed.Some? {
          isDarkMode := parsed.value;
        }
      }
    }
  }
}
