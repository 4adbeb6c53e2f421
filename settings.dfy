// src/pages/Settings.tsx: the preferences page. Preferred-language badges use
// the shared add-or-remove toggle, and the dark-mode switch maps to and from
// the theme name.

module Settings {

  import opened Common
  import opened Selection

  const Languages: seq<string> := ["Python", "JavaScript", "C++", "React", "Java", "Go"]

  /** The selection the page starts with. */
  const InitialSelection: seq<string> := ["Python", "JavaScript"]

  /** A language badge is highlighted exactly when the language is selected;
      a click on a highlighted badge takes the language out of the selection,
      and a click on any other appends it at the end. */
  function Highlighted(selected: seq<string>, language: string): (r: bool)
    ensures r <==> language in selected
    ensures r <==> language !in Toggle(selected, language)
    ensures !r ==> Toggle(selected, language) == selected + [language]
  {
    language in selected
  }

  /** Clicking a badge: `toggleLanguage`. */
  function ClickLanguage(selected: seq<string>, language: string): (r: seq<string>)
    ensures Highlighted(r, language) <==> !Highlighted(selected, language)
    ensures forall other :: other != language ==> (Highlighted(r, other) <==> Highlighted(selected, other))
  {
    Toggle(selected, language)
  }

  /** Initially exactly Python and JavaScript are highlighted. */
  lemma InitialHighlights(language: string)
    ensures Highlighted(InitialSelection, language) <==> language == "Python" || language == "JavaScript"
  {
  }

  /** Clicking a badge twice restores which badges are highlighted, and from
      the initial selection it restores the very list for the four others. */
  lemma ClickTwice(selected: seq<string>, language: string, other: string)
    ensures Highlighted(ClickLanguage(ClickLanguage(selected, language), language), other) <==> Highlighted(selected, other)
    ensures language !in InitialSelection ==>
      ClickLanguage(ClickLanguage(InitialSelection, language), language) == InitialSelection
  {
    ToggleTwiceMembership(selected, language, other);
    if language !in InitialSelection {
      ToggleTwiceRestores(InitialSelection, language);
    }
  }

  /** The dark-mode switch is on exactly for the "dark" theme. */
  function SwitchChecked(theme: string): (r: bool)
    ensures r <==> theme == "dark"
  {
    theme == "dark"
  }

  /** `onCheckedChange`: on selects "dark", off selects "light". */
  function ThemeFor(checked: bool): (r: string)
    ensures r == "dark" || r == "light"
    ensures SwitchChecked(r) == checked
  {
    if checked then "dark" else "light"
  }

  /** Flipping the switch and reading it back are inverse for the two themes it sets. */
  lemma ThemeRoundTrip(theme: string, checked: bool)
    ensures SwitchChecked(ThemeFor(checked)) == checked
    ensures theme == "dark" || theme == "light" ==> ThemeFor(SwitchChecked(theme)) == theme
  {
  }
}
