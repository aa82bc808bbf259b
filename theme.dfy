/** The light/dark theme of the site: which theme is current, which one the
    toggle switches to, how the first theme is chosen, and the page state
    that the toggle, the start-up code and a change of the system colour
    scheme keep consistent. */
module Theme {
  import opened StringUtil

  const Dark: string := "dark"
  const Light: string := "light"

  /** The theme read from the `data-theme` attributes: the body's, else the
      root element's, else dark. Shared by `currentTheme` and
      `applyPageConfig`. */
  function CurrentTheme(body: Option<string>, doc: Option<string>): (t: string)
    ensures t != ""
    ensures Truthy(body) ==> t == body.value
    ensures !Truthy(body) && Truthy(doc) ==> t == doc.value
    ensures !Truthy(body) && !Truthy(doc) ==> t == Dark
  {
    OrElse(body, OrElse(doc, Dark))
  }

  /** The theme the toggle switches to: light from dark, dark from anything
      else. */
  function NextTheme(t: string): (next: string)
    ensures next == Dark || next == Light
    ensures next == Light <==> t == Dark
    ensures (t == Dark || t == Light) ==> next != t
  {
    if t == Dark then Light else Dark
  }

  /** The first theme: a stored one if there is one, else the system's
      preference. */
  function InitialTheme(stored: Option<string>, prefersDark: bool): (t: string)
    ensures t != ""
    ensures Truthy(stored) ==> t == stored.value
    ensures !Truthy(stored) ==> (t == Dark <==> prefersDark) && (t == Dark || t == Light)
  {
    OrElse(stored, if prefersDark then Dark else Light)
  }

  /** The `theme-color` meta content for a theme. */
  function ThemeColor(t: string): (c: string)
    ensures t == Light ==> c == "#dedccb"
    ensures t != Light ==> c == "#001d1d"
  {
    if t == Light then "#dedccb" else "#001d1d"
  }

  /** Two toggles in a row come back to a light or dark theme. */
  lemma ToggleTwice(t: string)
    requires t == Dark || t == Light
    ensures NextTheme(NextTheme(t)) == t
  {
    assert NextTheme(t) != t;
  }

  /** The theme part of the page: the `ta-theme` entry of local storage,
      the two `data-theme` attributes, the `theme-color` meta element (if the
      page has one), the icon on the toggle button, and the `themechange`
      events dispatched so far. */
  class ThemeState {
    var stored: Option<string>
    var bodyTheme: Option<string>
    var docTheme: Option<string>
    const hasMeta: bool
    var metaColor: Option<string>
    var showsSun: bool
    var dispatched: seq<string>

    function Current(): string
      reads this
    {
      CurrentTheme(bodyTheme, docTheme)
    }

    /** Both attributes hold the same theme, the meta colour matches it and
      the icon offers light exactly when the theme is dark. */
    predicate Valid()
      reads this
    {
      bodyTheme.Some? && bodyTheme.value != "" && docTheme == bodyTheme
      && (hasMeta ==> metaColor == Some(ThemeColor(bodyTheme.value)))
      && showsSun == (bodyTheme.value == Dark)
    }

    /** `initTheme` followed by the first `updateToggleIcon`. */
    constructor (stored: Option<string>, hasMeta: bool, prefersDark: bool)
      ensures Valid()
      ensures this.stored == stored && this.hasMeta == hasMeta && dispatched == []
      ensures Current() == InitialTheme(stored, prefersDark)
    {
      var t := InitialTheme(stored, prefersDark);
      this.stored := stored;
      this.hasMeta := hasMeta;
      bodyTheme := Some(t);
      docTheme := Some(t);
      metaColor := if hasMeta then Some(ThemeColor(t)) else None;
      showsSun := t == Dark;
      dispatched := [];
    }

    /** `applyTheme` followed by `updateToggleIcon`. */
    method ApplyTheme(t: string)
      requires t != ""
      modifies this`bodyTheme, this`docTheme, this`metaColor, this`showsSun
      ensures Valid() && Current() == t
      ensures bodyTheme == Some(t) && docTheme == Some(t)
      ensures metaColor == if hasMeta then Some(ThemeColor(t)) else old(metaColor)
    {
      bodyTheme := Some(t);
      docTheme := Some(t);
      if hasMeta {
        metaColor := Some(ThemeColor(t));
      }
      showsSun := Current() == Dark;
    }

    /** The `change` listener of the colour-scheme query: it follows the
      system only while no theme is stored. */
    method OnSystemSchemeChange(prefersDark: bool)
      requires Valid()
      modifies this`bodyTheme, this`docTheme, this`metaColor, this`showsSun
      ensures Valid()
      ensures Truthy(stored) ==> Current() == old(Current())
      ensures !Truthy(stored) ==> Current() == InitialTheme(stored, prefersDark)
    {
      if !Truthy(stored) {
        ApplyTheme(if prefersDark then Dark else Light);
      }
    }

    /** The toggle button: switch theme, remember it, and announce it. */
    method Toggle()
      requires Valid()
      modifies this`bodyTheme, this`docTheme, this`metaColor, this`showsSun, this`stored, this`dispatched
      ensures Valid()
      ensures Current() == NextTheme(old(Current()))
      ensures stored == Some(Current())
      ensures dispatched == old(dispatched) + [Current()]
    {
      var next := NextTheme(Current());
      ApplyTheme(next);
      stored := Some(next);
      dispatched := dispatched + [next];
    }
  }

  /** Once the toggle has been used, a change of the system colour scheme no
      longer changes the theme. */
  method ToggleThenSchemeChange(s: ThemeState, prefersDark: bool)
    requires s.Valid()
    modifies s
    ensures s.Valid() && s.Current() == NextTheme(old(s.Current()))
  {
    s.Toggle();
    s.OnSystemSchemeChange(prefersDark);
  }
}
