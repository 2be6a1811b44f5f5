/**
 * The theme button of `src/components/layout/theme-toggle.tsx`. Each click
 * moves through light, dark and system in a cycle. The accessible label names
 * the theme that comes next. The theme store of `next-themes` appears here as
 * the field `theme`, with `None` for a theme not yet known.
 */
module ThemeToggle {
  import opened Wrappers

  const THEME_CYCLE: seq<string> := ["light", "dark", "system"]

  /** `THEME_LABELS[theme]`, which is `undefined` for any other key. */
  function ThemeLabelOf(key: string): Option<string> {
    if key == "light" then Some("Switch to dark mode")
    else if key == "dark" then Some("Switch to system mode")
    else if key == "system" then Some("Switch to light mode")
    else None
  }

  /** `Array.prototype.indexOf`: the first index holding `x`, or -1. */
  function IndexOf(s: seq<string>, x: string): (i: int)
    ensures -1 <= i < |s|
    ensures i == -1 <==> x !in s
    ensures 0 <= i ==> s[i] == x && forall k :: 0 <= k < i ==> s[k] != x
  {
    if s == [] then -1
    else if s[0] == x then 0
    else
      var rest := IndexOf(s[1..], x);
      if rest == -1 then -1 else rest + 1
  }

  /** The theme `cycleTheme` sets; the index is never negative, so JavaScript's `%` agrees with Dafny's. */
  function NextTheme(theme: Option<string>): string {
    var currentIndex := IndexOf(THEME_CYCLE, theme.GetOr("system"));
    var nextIndex := (currentIndex + 1) % |THEME_CYCLE|;
    THEME_CYCLE[nextIndex]
  }

  datatype Icon = Sun | Moon | Monitor

  class ThemeButton {
    var theme: Option<string>
    var mounted: bool

    constructor(theme: Option<string>)
      ensures this.theme == theme && !mounted
    {
      this.theme := theme;
      mounted := false;
    }

    /** The effect that runs once the component is mounted. */
    method Mount()
      modifies this
      ensures mounted && theme == old(theme)
    {
      mounted := true;
    }

    /**
     * `cycleTheme`, the click handler. Before mounting the component renders a
     * disabled placeholder button without a handler, so only a mounted button
     * can cycle.
     */
    method CycleTheme()
      requires mounted
      modifies this
      ensures theme == Some(NextTheme(old(theme))) && mounted == old(mounted)
    {
      var currentIndex := IndexOf(THEME_CYCLE, theme.GetOr("system"));
      var nextIndex := (currentIndex + 1) % |THEME_CYCLE|;
      theme := Some(THEME_CYCLE[nextIndex]);
    }

    /** The `aria-label`: a fixed text before mounting, then the label for `theme ?? "system"`. */
    function AriaLabel(): (text: Option<string>)
      reads this
      ensures !mounted ==> text == Some("Toggle theme")
      ensures mounted && (theme == None || theme.value in THEME_CYCLE) ==>
        text == Some("Switch to " + NextTheme(theme) + " mode")
      ensures mounted && theme.Some? && theme.value !in THEME_CYCLE ==> text == None
    {
      if mounted && (theme == None || theme.value in THEME_CYCLE) then
        LabelNamesNextTheme(theme);
        ThemeLabelOf(theme.GetOr("system"))
      else if !mounted then Some("Toggle theme") else ThemeLabelOf(theme.GetOr("system"))
    }

    /** The icon shown: the sun before mounting and for light, the moon for dark, otherwise the monitor. */
    function ShownIcon(): (icon: Icon)
      reads this
      ensures icon == Sun <==> !mounted || theme == Some("light")
      ensures icon == Moon <==> mounted && theme == Some("dark")
    {
      if !mounted then Sun
      else if theme == Some("light") then Sun
      else if theme == Some("dark") then Moon
      else Monitor
    }
  }

  /** The cycle is light, dark, system, light; an unset theme counts as system. */
  lemma CycleOrder()
    ensures NextTheme(Some("light")) == "dark"
    ensures NextTheme(Some("dark")) == "system"
    ensures NextTheme(Some("system")) == "light"
    ensures NextTheme(None) == "light"
  {
    assert IndexOf(THEME_CYCLE, "light") == 0;
    assert IndexOf(THEME_CYCLE, "dark") == 1;
    assert IndexOf(THEME_CYCLE, "system") == 2;
  }

  /** The label of a theme of the cycle, or of no theme, names the theme a click moves to. */
  lemma LabelNamesNextTheme(theme: Option<string>)
    requires theme == None || theme.value in THEME_CYCLE
    ensures ThemeLabelOf(theme.GetOr("system")) == Some("Switch to " + NextTheme(theme) + " mode")
  {
    CycleOrder();
    assert "Switch to " + "dark" + " mode" == "Switch to dark mode";
    assert "Switch to " + "system" + " mode" == "Switch to system mode";
    assert "Switch to " + "light" + " mode" == "Switch to light mode";
  }

  /** Any theme outside the cycle is followed by light. */
  lemma UnknownThemeToLight(theme: string)
    requires theme !in THEME_CYCLE
    ensures NextTheme(Some(theme)) == "light"
  {
  }

  /** Three clicks from a theme of the cycle return to it. */
  lemma ThreeClicksReturn(theme: string)
    requires theme in THEME_CYCLE
    ensures NextTheme(Some(NextTheme(Some(NextTheme(Some(theme)))))) == theme
  {
    CycleOrder();
  }

  /** A click always lands on a theme of the cycle. */
  lemma NextInCycle(theme: Option<string>)
    ensures NextTheme(theme) in THEME_CYCLE
  {
  }
}
