/**
 * The light/dark theme logic shared, line for line, by the quiz page
 * (src/index.ts) and the validator page (src/validator.ts). The saved
 * preference lives in local storage under "theme"; the page shows the
 * theme through the `data-theme` attribute of the document element.
 */
module Theme {
  import opened JsString

  /**
   * `getTheme()`: the saved theme when it is non-empty, otherwise "light"
   * when the system prefers light, otherwise "dark".
   */
  function GetTheme(saved: Option<string>, prefersLight: bool): (theme: string)
    ensures theme != ""
  {
    if Truthy(saved) then saved.value
    else if prefersLight then "light"
    else "dark"
  }

  /** The theme `toggleTheme()` switches to from `current`: always a different one of "light" and "dark". */
  function Toggled(current: string): (next: string)
    ensures next in {"light", "dark"} && next != current
  {
    if current == "dark" then "light" else "dark"
  }

  /** The saved preference decides whenever there is one; otherwise the system preference does. */
  lemma GetThemeChoice(saved: Option<string>, prefersLight: bool)
    ensures Truthy(saved) ==> GetTheme(saved, prefersLight) == saved.value
    ensures !Truthy(saved) ==> (GetTheme(saved, prefersLight) == "light" <==> prefersLight)
    ensures !Truthy(saved) ==> GetTheme(saved, prefersLight) in {"light", "dark"}
  {
  }

  /**
   * Toggling always lands on "light" or "dark" and always changes the
   * theme; toggling twice comes back exactly when the theme was "light"
   * or "dark" to begin with.
   */
  lemma ToggledFlips(current: string)
    ensures Toggled(current) in {"light", "dark"}
    ensures Toggled(current) != current
    ensures Toggled(Toggled(current)) == current <==> current in {"light", "dark"}
  {
  }

  /** The theme state of one page: local storage's "theme" entry and the document's `data-theme`. */
  class ThemeSettings {
    var saved: Option<string>
    var shown: Option<string>

    /** A page whose storage holds `saved`, showing no theme yet. */
    constructor (saved: Option<string>)
      ensures this.saved == saved && shown == None
    {
      this.saved := saved;
      shown := None;
    }

    /** `setTheme(theme)`: show it and save it. */
    method SetTheme(theme: string)
      modifies this
      ensures shown == Some(theme) && saved == Some(theme)
    {
      shown := Some(theme);
      saved := Some(theme);
    }

    /** `toggleTheme()`: switch away from the theme `getTheme()` reports, and save the result. */
    method ToggleTheme(prefersLight: bool)
      modifies this
      ensures saved == shown == Some(Toggled(GetTheme(old(saved), prefersLight)))
      ensures saved.value != GetTheme(old(saved), prefersLight)
      ensures forall p :: GetTheme(saved, p) == saved.value
    {
      var current := GetTheme(saved, prefersLight);
      SetTheme(Toggled(current));
      ToggledFlips(current);
    }

    /** The page-load handler's `setTheme(getTheme())`: it saves the theme it shows. */
    method Load(prefersLight: bool)
      modifies this
      ensures saved == shown == Some(GetTheme(old(saved), prefersLight))
      ensures Truthy(saved)
    {
      SetTheme(GetTheme(saved, prefersLight));
    }

    /**
     * The system colour-scheme listener: follow the system only while no
     * theme is saved. Once the page has loaded a theme is always saved,
     * so after `Load` this changes nothing.
     */
    method SystemSchemeChanged(prefersLight: bool)
      modifies this
      ensures Truthy(old(saved)) ==> saved == old(saved) && shown == old(shown)
      ensures !Truthy(old(saved)) ==> saved == shown == Some(if prefersLight then "light" else "dark")
    {
      if !Truthy(saved) {
        SetTheme(if prefersLight then "light" else "dark");
      }
    }
  }

  /** After page load, a change of the system colour scheme never changes the theme. */
  method LoadThenSchemeChange(saved: Option<string>, atLoad: bool, later: bool) returns (page: ThemeSettings)
    ensures page.saved == page.shown == Some(GetTheme(saved, atLoad))
  {
    page := new ThemeSettings(saved);
    page.Load(atLoad);
    page.SystemSchemeChanged(later);
  }
}
