/**
 * The theme hook (hooks/useDarkMode.ts): the initial mode from the saved preference and the
 * system setting, and the toggle that stores the new mode and keeps the document's 'dark'
 * class in step. Local storage and the document class are fields; the media query is a
 * parameter.
 */
module DarkMode {
  import opened Wrappers

  const ThemeKey := "nujuum-theme"

  /**
   * The initial mode: a saved 'dark' wins, any other saved value means light, and with nothing
   * saved (or an empty value) the system preference decides.
   */
  function InitialDark(saved: Option<string>, prefersDark: bool): (dark: bool)
    ensures saved == Some("dark") ==> dark
    ensures saved.Some? && saved.value != "" && saved.value != "dark" ==> !dark
    ensures (saved.None? || saved == Some("")) ==> (dark <==> prefersDark)
  {
    saved == Some("dark") || ((saved.None? || saved == Some("")) && prefersDark)
  }

  /** The value the toggle stores for a mode. */
  function ThemeName(dark: bool): (s: string)
    ensures s == "dark" <==> dark
  {
    if dark then "dark" else "light"
  }

  /** A stored preference is read back as the mode it was stored for, whatever the system prefers. */
  lemma StoredThemeReadBack(dark: bool, prefersDark: bool)
    ensures InitialDark(Some(ThemeName(dark)), prefersDark) == dark
  {
  }

  class ThemeState {
    var isDarkMode: bool
    /** The 'nujuum-theme' entry of local storage. */
    var saved: Option<string>
    /** Whether the document element has the 'dark' class. */
    var documentDark: bool

    /** In step: the document class shows the mode. */
    predicate Valid()
      reads this
    {
      documentDark == isDarkMode
    }

    /** Mount: the hook starts light, then the effect reads the preference and applies it. */
    constructor (saved0: Option<string>, documentDark0: bool, prefersDark: bool)
      ensures Valid()
      ensures isDarkMode == InitialDark(saved0, prefersDark) && saved == saved0
    {
      isDarkMode := false;
      saved := saved0;
      documentDark := documentDark0;
      var initial := InitialDark(saved0, prefersDark);
      isDarkMode := initial;
      if initial {
        documentDark := true;
      } else {
        documentDark := false;
      }
    }

    /** `toggleDarkMode`: flip, store the new mode's name, and apply it to the document. */
    method Toggle()
      requires Valid()
      modifies this
      ensures Valid()
      ensures isDarkMode == !old(isDarkMode)
      ensures saved == Some(ThemeName(isDarkMode))
    {
      var newDark := !isDarkMode;
      isDarkMode := newDark;
      saved := Some(ThemeName(newDark));
      if newDark {
        documentDark := true;
      } else {
        documentDark := false;
      }
    }
  }

  /** Two toggles give back the mode and document class, and store that mode's name. */
  method ToggleTwice(t: ThemeState)
    requires t.Valid()
    modifies t
    ensures t.Valid() && t.isDarkMode == old(t.isDarkMode) && t.documentDark == old(t.documentDark)
    ensures t.saved == Some(ThemeName(old(t.isDarkMode)))
  {
    t.Toggle();
    t.Toggle();
  }
}
