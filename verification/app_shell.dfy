/** The landing shell (frontend/src/App.js): a colour theme and the page
    shown, landing or team. */
module AppShell {

  /** `prev === 'dark' ? 'light' : 'dark'`. */
  function Toggled(theme: string): (r: string)
    ensures r == "dark" || r == "light"
    ensures r == "light" <==> theme == "dark"
  {
    if theme == "dark" then "light" else "dark"
  }

  /** On the two themes the app uses, toggling twice is the identity; any
      other value becomes "dark" after one toggle. */
  lemma ToggleTwice(theme: string)
    ensures theme == "dark" || theme == "light" ==> Toggled(Toggled(theme)) == theme
    ensures theme != "dark" ==> Toggled(theme) == "dark"
  {
  }

  datatype Page = LandingPage | TeamPage

  /** The component tree returned for `currentPage`: the team page only
      for exactly "team", the landing page for anything else. */
  function Rendered(currentPage: string): (p: Page)
    ensures p == TeamPage <==> currentPage == "team"
  {
    if currentPage == "team" then TeamPage else LandingPage
  }

  class App {
    var theme: string
    var currentPage: string

    /** Only the two themes ever occur. */
    ghost predicate Valid()
      reads this
    {
      theme == "dark" || theme == "light"
    }

    constructor ()
      ensures Valid() && theme == "dark" && currentPage == "landing"
    {
      theme, currentPage := "dark", "landing";
    }

    function View(): (p: Page)
      reads this
      ensures p == TeamPage <==> currentPage == "team"
    {
      Rendered(currentPage)
    }

    /** `toggleTheme`, wired to the navbar on both pages. */
    method ToggleTheme()
      requires Valid()
      modifies this
      ensures Valid() && theme == Toggled(old(theme)) && theme != old(theme)
      ensures currentPage == old(currentPage)
    {
      theme := Toggled(theme);
    }

    /** The navbar's `onTeamClick` (on either page). */
    method TeamClick()
      requires Valid()
      modifies this
      ensures Valid() && currentPage == "team" && View() == TeamPage
      ensures theme == old(theme)
    {
      currentPage := "team";
    }

    /** The team page's `onBack`. */
    method Back()
      requires Valid()
      modifies this
      ensures Valid() && currentPage == "landing" && View() == LandingPage
      ensures theme == old(theme)
    {
      currentPage := "landing";
    }

    /** The landing navbar's `onGetStartedClick` is `() => {}`; the hero's
        "Get Started" button has no handler at all. */
    method GetStarted()
      modifies {}
      ensures theme == old(theme) && currentPage == old(currentPage)
    {
    }
  }
}
