/** The theme manager: the current theme, kept in local storage and on the
    document, toggled between dark and light, with listeners told of every
    change. */
module Theme {
  import opened Wrappers
  import opened Listeners

  /** `localStorage.getItem('e3_theme') || 'dark'`: a missing or empty stored
      value falls back to dark. */
  function InitialTheme(stored: Option<string>): (t: string)
    ensures t != ""
    ensures stored.Some? && stored.value != "" ==> t == stored.value
    ensures stored.None? || stored.value == "" ==> t == "dark"
  {
    if stored.Some? && stored.value != "" then stored.value else "dark"
  }

  /** The theme `toggle` moves to: light from dark, dark from anything
      else. */
  function Toggled(t: string): (r: string)
    ensures r == "light" <==> t == "dark"
    ensures r == "dark" <==> t != "dark"
  {
    if t == "dark" then "light" else "dark"
  }

  /** Toggling twice restores the theme exactly when it was dark or light;
      any other stored theme ends up light. */
  lemma ToggleTwice(t: string)
    ensures Toggled(Toggled(t)) == t <==> t == "dark" || t == "light"
    ensures t != "dark" ==> Toggled(Toggled(t)) == "light"
  {
    assert "light" != "dark";
  }

  class ThemeManager {
    var currentTheme: string
    var listeners: seq<Callback>
    /** The `e3_theme` entry of local storage. */
    var saved: Option<string>
    /** The `data-theme` attribute of the document element. */
    var attribute: string

    /** The constructor reads the stored theme and applies it, before any
        listener exists. */
    constructor (stored: Option<string>)
      ensures currentTheme == InitialTheme(stored)
      ensures saved == Some(currentTheme) && attribute == currentTheme
      ensures listeners == []
    {
      currentTheme := InitialTheme(stored);
      listeners := [];
      saved := Some(currentTheme);
      attribute := currentTheme;
    }

    /** `applyTheme(theme)`: set the attribute, the stored entry and the
        field, then call every current listener with the theme. */
    method ApplyTheme(theme: string) returns (calls: seq<Call<string>>)
      modifies this
      ensures attribute == theme && saved == Some(theme) && currentTheme == theme
      ensures listeners == old(listeners)
      ensures calls == Calls(listeners, theme)
    {
      attribute := theme;
      saved := Some(theme);
      currentTheme := theme;
      calls := Notify(listeners, theme);
    }

    /** `toggle()`: apply the other theme and return it. */
    method Toggle() returns (newTheme: string, calls: seq<Call<string>>)
      modifies this
      ensures newTheme == Toggled(old(currentTheme))
      ensures GetTheme() == newTheme && saved == Some(newTheme) && attribute == newTheme
      ensures listeners == old(listeners)
      ensures calls == Calls(listeners, newTheme)
    {
      newTheme := if currentTheme == "dark" then "light" else "dark";
      calls := ApplyTheme(newTheme);
    }

    function GetTheme(): string
      reads this
    {
      currentTheme
    }

    /** `subscribe(callback)`: append it. */
    method Subscribe(cb: Callback)
      modifies this
      ensures listeners == old(listeners) + [cb]
      ensures currentTheme == old(currentTheme) && saved == old(saved) && attribute == old(attribute)
    {
      listeners := listeners + [cb];
    }

    /** The function `subscribe` returns: filter the callback out. */
    method Unsubscribe(cb: Callback)
      modifies this
      ensures listeners == Without(old(listeners), cb)
      ensures cb !in listeners
      ensures currentTheme == old(currentTheme) && saved == old(saved) && attribute == old(attribute)
    {
      listeners := Without(listeners, cb);
      WithoutMembers(old(listeners), cb);
    }
  }
}
