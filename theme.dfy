/** The colour theme hook (client/src/hooks/useTheme.ts). Its first value comes
    from the stored `theme` entry or, when nothing is stored, from the system's
    dark-mode preference. After every change an effect sets the `dark` class of
    the document root and writes the theme back to storage. The storage and the
    media query are inputs here; the stored entry is any string, because the
    hook only casts what it reads. */
module Theme {
  import opened Common

  const Dark := "dark"
  const Light := "light"

  /** `!storedTheme` for the value `localStorage.getItem` returns: `null` or a
      string, where the empty string is falsy too. */
  predicate Truthy(stored: Option<string>)
  {
    stored.Some? && stored.value != ""
  }

  /** The lazy initial state: a stored value wins; with nothing stored, the
      theme is dark when `matchMedia` exists and reports a dark preference, and
      light otherwise. */
  function InitialTheme(stored: Option<string>, hasMatchMedia: bool, prefersDark: bool): (r: string)
    ensures Truthy(stored) ==> r == stored.value
    ensures !Truthy(stored) && hasMatchMedia && prefersDark ==> r == Dark
    ensures !Truthy(stored) && !(hasMatchMedia && prefersDark) ==> r == Light
    ensures r != ""
  {
    if !Truthy(stored) && hasMatchMedia && prefersDark then Dark
    else if Truthy(stored) then stored.value
    else Light
  }

  /** `prevTheme === 'dark' ? 'light' : 'dark'`. */
  function Toggled(theme: string): (r: string)
    ensures r == Dark || r == Light
    ensures r == Light <==> theme == Dark
  {
    if theme == Dark then Light else Dark
  }

  /** Toggling twice restores `'dark'` and `'light'`; any other stored value
      comes back as `'light'`. */
  lemma ToggleTwice(theme: string)
    ensures theme == Dark || theme == Light ==> Toggled(Toggled(theme)) == theme
    ensures theme != Dark && theme != Light ==> Toggled(Toggled(theme)) == Light
  {
  }

  /** A theme written back by the effect is read back unchanged on the next
      load, whatever the system preference says then. */
  lemma ReloadKeepsTheme(theme: string, hasMatchMedia: bool, prefersDark: bool)
    requires theme != ""
    ensures InitialTheme(Some(theme), hasMatchMedia, prefersDark) == theme
  {
  }

  /** The hook's state together with the two things its effect touches. */
  class ThemeHost {
    var theme: string
    /** Whether `document.documentElement` carries the `dark` class. */
    var darkClass: bool
    /** The `theme` entry of local storage. */
    var stored: Option<string>

    /** The effect has run for the current theme. */
    predicate Synced()
      reads this
    {
      darkClass == (theme == Dark) && stored == Some(theme) && theme != ""
    }

    /** Mounting: the initial decision, then the effect's first run. */
    constructor (storedAtLoad: Option<string>, hasMatchMedia: bool, prefersDark: bool)
      ensures theme == InitialTheme(storedAtLoad, hasMatchMedia, prefersDark)
      ensures Synced()
    {
      theme := InitialTheme(storedAtLoad, hasMatchMedia, prefersDark);
      darkClass := InitialTheme(storedAtLoad, hasMatchMedia, prefersDark) == Dark;
      stored := Some(InitialTheme(storedAtLoad, hasMatchMedia, prefersDark));
    }

    /** `toggleTheme`, followed by the effect it triggers. */
    method ToggleTheme()
      modifies this
      ensures theme == Toggled(old(theme))
      ensures Synced()
    {
      theme := Toggled(theme);
      if theme == Dark {
        darkClass := true;
      } else {
        darkClass := false;
      }
      stored := Some(theme);
    }
  }

  /** Reloading after any number of toggles starts from the theme the user
      left, because the effect stored it. */
  method ReloadAfterToggle(storedAtLoad: Option<string>, hasMatchMedia: bool, prefersDark: bool)
    returns (before: string, after: string)
    ensures before == Toggled(InitialTheme(storedAtLoad, hasMatchMedia, prefersDark))
    ensures after == before
  {
    var host := new ThemeHost(storedAtLoad, hasMatchMedia, prefersDark);
    host.ToggleTheme();
    before := host.theme;
    var reloaded := new ThemeHost(host.stored, hasMatchMedia, prefersDark);
    after := reloaded.theme;
  }
}
