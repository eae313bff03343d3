/** The light/dark theme switch. On mount it resolves the theme from the
    stored choice, falling back to the system preference, and applies it to
    the document; each click flips the theme, applies it and stores it.
    Browser storage and the document's class list are plain fields here. */
module ThemeToggle {
  import opened JsValues

  /** `stored ? stored === "dark" : prefersDark`: a stored, non-empty value
      decides (only "dark" means dark); otherwise the system preference
      does. */
  function Resolve(stored: Option<string>, prefersDark: bool): (dark: bool)
    ensures Truthy(stored) ==> (dark <==> stored.value == "dark")
    ensures !Truthy(stored) ==> dark == prefersDark
  {
    if Truthy(stored) then stored.value == "dark" else prefersDark
  }

  /** The value written to storage for a theme; the button label spells
      the modes the same way. */
  function Persisted(dark: bool): (v: string)
    ensures v == "dark" <==> dark
    ensures v == "light" <==> !dark
  {
    if dark then "dark" else "light"
  }

  /** What toggling stores is what resolution reads back, whatever the
      system preference. */
  lemma PersistedRoundTrip(dark: bool, prefersDark: bool)
    ensures Resolve(Some(Persisted(dark)), prefersDark) == dark
  {
  }

  /** What the component renders: a placeholder before mounting, then the
      switch with its label and knob position. */
  datatype View = Placeholder | Switch(ariaLabel: string, knobRight: bool)

  class Theme {
    var isDark: bool
    var mounted: bool
    /** Whether the document element carries the 'dark' class. */
    var darkClass: bool
    /** The "theme" entry of local storage. */
    var stored: Option<string>

    /** First render: both state flags false; storage and the document are
        whatever the browser has. */
    constructor (stored: Option<string>, darkClass: bool)
      ensures !isDark && !mounted
      ensures this.stored == stored && this.darkClass == darkClass
    {
      isDark := false;
      mounted := false;
      this.darkClass := darkClass;
      this.stored := stored;
    }

    /** The mount effect, given the `prefers-color-scheme: dark` query. */
    method Mount(prefersDark: bool)
      modifies this
      ensures isDark == Resolve(old(stored), prefersDark)
      ensures darkClass == isDark
      ensures mounted
      ensures stored == old(stored)
    {
      var dark := Resolve(stored, prefersDark);
      isDark := dark;
      darkClass := dark;
      mounted := true;
    }

    /** `toggleTheme`. */
    method Toggle()
      modifies this
      ensures isDark == !old(isDark)
      ensures darkClass == isDark
      ensures stored == Some(Persisted(isDark))
      ensures mounted == old(mounted)
    {
      var newTheme := !isDark;
      isDark := newTheme;
      darkClass := newTheme;
      stored := Some(Persisted(newTheme));
    }

    /** Only a placeholder until mounted; then the switch, whose label
        offers the opposite of the current mode. */
    function Render(): (v: View)
      reads this
      ensures v.Placeholder? <==> !mounted
      ensures v.Switch? ==> v.ariaLabel == "Switch to " + Persisted(!isDark) + " mode"
      ensures v.Switch? ==> v.knobRight == isDark
    {
      if !mounted then Placeholder
      else Switch("Switch to " + Persisted(!isDark) + " mode", isDark)
    }
  }

  /** Toggling twice restores the theme, the document class and the mount
      flag; storage then holds the restored choice. */
  method ToggleTwice(t: Theme)
    modifies t
    ensures t.isDark == old(t.isDark) && t.mounted == old(t.mounted)
    ensures t.darkClass == t.isDark
    ensures t.stored == Some(Persisted(old(t.isDark)))
  {
    t.Toggle();
    t.Toggle();
  }

  /** A toggled choice survives a reload: a fresh component that mounts
      against the same storage shows the same theme, whatever the system
      preference. */
  method Reload(t: Theme, prefersDark: bool) returns (fresh': Theme)
    requires t.stored.Some? && t.stored.value in {"dark", "light"}
    ensures fresh'.isDark == (t.stored.value == "dark")
    ensures fresh'.mounted && fresh'.darkClass == fresh'.isDark
  {
    fresh' := new Theme(t.stored, t.darkClass);
    fresh'.Mount(prefersDark);
  }

  /** After any toggle, a reload shows the toggled theme. */
  method ToggleThenReload(t: Theme, prefersDark: bool) returns (fresh': Theme)
    modifies t
    ensures fresh'.isDark == t.isDark == !old(t.isDark)
  {
    t.Toggle();
    fresh' := Reload(t, prefersDark);
  }
}
