/** The colour theme: the user's choice (light, dark, or follow the system), the light-or-dark
    theme actually shown, the class on the document's root element, and the choice remembered
    under `taskflow-theme`. The system preference is the state of the dark-scheme media query,
    given as a value; the provider's effects run right after the state change that triggers
    them. */
module Theme {
  import opened Wrappers
  import opened BrowserStorage

  datatype Theme = Light | Dark | System

  /** What is shown is never "system". */
  type Resolved = t: Theme | t != System witness Light

  const ThemeKey := "taskflow-theme"
  const OutsideProviderError := "useTheme must be used within a ThemeProvider"

  function ThemeName(t: Theme): string {
    match t
    case Light => "light"
    case Dark => "dark"
    case System => "system"
  }

  /** A stored value counts only when it is exactly one of the three names. */
  function DecodeTheme(s: string): (r: Option<Theme>)
    ensures r.Some? <==> s == "light" || s == "dark" || s == "system"
    ensures r.Some? ==> ThemeName(r.value) == s
  {
    if s == "light" then Some(Light)
    else if s == "dark" then Some(Dark)
    else if s == "system" then Some(System)
    else None
  }

  lemma ThemeNameRoundTrip(t: Theme)
    ensures DecodeTheme(ThemeName(t)) == Some(t)
  {
  }

  /** The theme the provider starts with: dark on the server; in a browser the remembered
      choice when it decodes, "system" otherwise (also when nothing is remembered). */
  function InitialTheme(hasWindow: bool, stored: Option<string>): (r: Theme)
    ensures !hasWindow ==> r == Dark
    ensures hasWindow && stored.Some? && DecodeTheme(stored.value).Some? ==> r == DecodeTheme(stored.value).value
    ensures hasWindow && (stored.None? || DecodeTheme(stored.value).None?) ==> r == System
  {
    if !hasWindow then Dark
    else if stored.Some? && DecodeTheme(stored.value).Some? then DecodeTheme(stored.value).value
    else System
  }

  /** `getSystemTheme()`: dark without a window, otherwise what the media query says. */
  function GetSystemTheme(hasWindow: bool, prefersDark: bool): (r: Resolved)
    ensures r == Dark <==> !hasWindow || prefersDark
  {
    if !hasWindow then Dark else if prefersDark then Dark else Light
  }

  /** The theme shown for a choice. */
  function Resolve(theme: Theme, hasWindow: bool, prefersDark: bool): (r: Resolved)
    ensures theme != System ==> r == theme
    ensures theme == System ==> r == GetSystemTheme(hasWindow, prefersDark)
  {
    if theme == System then GetSystemTheme(hasWindow, prefersDark) else theme
  }

  /** The root element's classes after `remove("light", "dark")` then `add(resolved)`. */
  function ApplyClasses(classes: set<string>, resolved: Resolved): (r: set<string>)
    ensures r * {"light", "dark"} == {ThemeName(resolved)}
    ensures forall c :: c != "light" && c != "dark" ==> (c in r <==> c in classes)
  {
    classes - {"light", "dark"} + {ThemeName(resolved)}
  }

  /** A choice written by the apply effect is the choice the next mount starts with. */
  lemma RememberedChoiceIsRestored(verdict: Verdict, items: map<string, string>, theme: Theme)
    requires verdict(items, ThemeKey, ThemeName(theme)) == Written
    ensures InitialTheme(true, Lookup(Store(verdict, items, ThemeKey, ThemeName(theme)).1, ThemeKey)) == theme
  {
    ThemeNameRoundTrip(theme);
  }

  /** The provider's state: the choice, the theme shown, and the root element's class list. */
  class ThemeProvider {
    const ls: Storage
    var prefersDark: bool
    var theme: Theme
    var resolved: Resolved
    var rootClasses: set<string>

    /** What is shown always follows from the choice and the current system preference. */
    ghost predicate Valid()
      reads this
    {
      resolved == Resolve(theme, ls.hasWindow, prefersDark)
    }

    /** In a browser the root element carries exactly the class of the theme shown. */
    ghost predicate Applied()
      reads this
    {
      ls.hasWindow ==> rootClasses * {"light", "dark"} == {ThemeName(resolved)}
    }

    /** Mounting: the lazy initial states, then the apply effect. */
    constructor (ls: Storage, prefersDark: bool, rootClasses: set<string>)
      modifies ls
      ensures this.ls == ls && this.prefersDark == prefersDark
      ensures theme == InitialTheme(ls.hasWindow, Lookup(old(ls.items), ThemeKey))
      ensures resolved == Resolve(theme, ls.hasWindow, prefersDark)
      ensures ls.hasWindow ==> this.rootClasses == ApplyClasses(rootClasses, resolved)
      ensures ls.hasWindow ==> ls.items == Store(ls.verdict, old(ls.items), ThemeKey, ThemeName(theme)).1
      ensures !ls.hasWindow ==> this.rootClasses == rootClasses && ls.items == old(ls.items)
      ensures Valid() && Applied()
    {
      var stored := ls.GetItem(ThemeKey);
      var t := InitialTheme(ls.hasWindow, stored);
      this.ls := ls;
      this.prefersDark := prefersDark;
      theme := t;
      resolved := Resolve(t, ls.hasWindow, prefersDark);
      this.rootClasses := rootClasses;
      new;
      ApplyEffect();
    }

    /** The effect that runs whenever the choice or the theme shown changes. */
    method ApplyEffect()
      modifies this, ls
      ensures theme == old(theme) && resolved == old(resolved) && prefersDark == old(prefersDark)
      ensures ls.hasWindow ==> rootClasses == ApplyClasses(old(rootClasses), resolved)
      ensures ls.hasWindow ==> ls.items == Store(ls.verdict, old(ls.items), ThemeKey, ThemeName(theme)).1
      ensures !ls.hasWindow ==> rootClasses == old(rootClasses) && ls.items == old(ls.items)
      ensures Applied()
    {
      if !ls.hasWindow {
        return;
      }
      rootClasses := ApplyClasses(rootClasses, resolved);
      var _ := ls.SetItem(ThemeKey, ThemeName(theme));
    }

    /** `setTheme`: a new choice re-resolves the theme shown and runs the apply effect; choosing
        the current theme again changes nothing. */
    method SetTheme(newTheme: Theme)
      requires Valid()
      modifies this, ls
      ensures theme == newTheme && prefersDark == old(prefersDark)
      ensures newTheme == old(theme) ==>
        resolved == old(resolved) && rootClasses == old(rootClasses) && ls.items == old(ls.items)
      ensures newTheme != old(theme) && ls.hasWindow ==>
        && rootClasses == ApplyClasses(old(rootClasses), resolved)
        && ls.items == Store(ls.verdict, old(ls.items), ThemeKey, ThemeName(newTheme)).1
      ensures !ls.hasWindow ==> rootClasses == old(rootClasses) && ls.items == old(ls.items)
      ensures Valid()
      ensures old(Applied()) ==> Applied()
    {
      if newTheme == theme {
        return;
      }
      theme := newTheme;
      resolved := Resolve(newTheme, ls.hasWindow, prefersDark);
      ApplyEffect();
    }

    /** A change of the system preference: it reaches the theme shown only while the choice is
        "system", and the apply effect runs only when the theme shown changes. */
    method SystemPreferenceChanged(nowPrefersDark: bool)
      requires Valid()
      modifies this, ls
      ensures prefersDark == nowPrefersDark && theme == old(theme)
      ensures theme != System ==> resolved == old(resolved)
      ensures resolved == old(resolved) ==> rootClasses == old(rootClasses) && ls.items == old(ls.items)
      ensures resolved != old(resolved) && ls.hasWindow ==>
        && rootClasses == ApplyClasses(old(rootClasses), resolved)
        && ls.items == Store(ls.verdict, old(ls.items), ThemeKey, ThemeName(theme)).1
      ensures Valid()
      ensures old(Applied()) ==> Applied()
    {
      prefersDark := nowPrefersDark;
      if theme != System {
        return;
      }
      var next := GetSystemTheme(ls.hasWindow, nowPrefersDark);
      if next == resolved {
        return;
      }
      resolved := next;
      ApplyEffect();
    }
  }

  /** The value `useTheme` hands to components. */
  datatype ThemeContext = ThemeContext(theme: Theme, resolved: Resolved)

  /** `useTheme`: the provider's value, or an error outside a provider. */
  function UseTheme(context: Option<ThemeContext>): (r: Result<ThemeContext, string>)
    ensures r.Success? <==> context.Some?
    ensures r.Success? ==> r.value == context.value
    ensures r.Failure? ==> r.error == OutsideProviderError
  {
    if context.Some? then Success(context.value) else Failure(OutsideProviderError)
  }
}
