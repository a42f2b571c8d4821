/** The light/dark theme preference and its toggle. */
module Theme {
  import opened Wrappers
  import Store

  const Light := "light"
  const Dark := "dark"

  /** The theme when nothing is stored. */
  const DefaultTheme := Light

  /** `toggleTheme`'s updater: light becomes dark, anything else becomes light. */
  function Toggle(prev: string): (r: string)
    ensures r == Light || r == Dark
    ensures r == Dark <==> prev == Light
  {
    if prev == Light then Dark else Light
  }

  /** On the two themes the toggle is its own inverse. */
  lemma ToggleTwice(t: string)
    requires t == Light || t == Dark
    ensures Toggle(Toggle(t)) == t
  {
  }

  /** After one toggle, from any stored value, further pairs of toggles change nothing. */
  lemma ToggleSettles(t: string)
    ensures Toggle(Toggle(Toggle(t))) == Toggle(t)
  {
  }

  class ThemeToggle {
    var theme: string

    constructor (stored: Option<string>)
      ensures theme == Store.Initial(stored, DefaultTheme)
      ensures stored.None? ==> theme == "light"
    {
      theme := Store.Initial(stored, DefaultTheme);
    }

    method ToggleTheme()
      modifies this
      ensures theme == Toggle(old(theme))
    {
      theme := Store.Next(theme, Store.Update(Toggle));
    }
  }
}
