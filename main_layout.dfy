/** The layout around the signed-in pages: which navigation entry is
    current, where each entry leads, and signing out. */
module Layout {
  import opened Js
  import opened Json
  import opened Auth
  import opened LocalStorage

  datatype Page = StartPage | SessionsPage | ProfilePage

  /** `getCurrentPage()`: a prefix test, so '/sessionsX' counts as the sessions page. */
  function GetCurrentPage(pathname: string): Page {
    if StartsWith(pathname, "/sessions") then SessionsPage
    else if StartsWith(pathname, "/profile") then ProfilePage
    else StartPage
  }

  /** The route table of `handleNavigate`. */
  function Route(page: Page): string {
    match page
    case StartPage => "/"
    case SessionsPage => "/sessions"
    case ProfilePage => "/profile"
  }

  /** Every page is current on its own route, so the table is injective;
      any path below a route selects that route's page. */
  lemma RouteRoundTrip(p: Page, q: Page, suffix: string)
    ensures GetCurrentPage(Route(p)) == p
    ensures Route(p) == Route(q) ==> p == q
    ensures p != StartPage ==> GetCurrentPage(Route(p) + suffix) == p
  {
    if p != StartPage {
      assert (Route(p) + suffix)[..|Route(p)|] == Route(p);
      if p == ProfilePage {
        assert (Route(p) + suffix)[2] == 'r';
      }
    }
  }

  lemma PrefixExamples()
    ensures GetCurrentPage("/sessionsX") == SessionsPage
    ensures GetCurrentPage("/profile/edit") == ProfilePage
    ensures GetCurrentPage("/login") == StartPage && GetCurrentPage("") == StartPage
  {
    assert "/sessionsX"[..9] == "/sessions";
    assert "/profile/edit"[..8] == "/profile";
    assert "/profile/edit"[1] == 'p';
    assert "/login"[1] == 'l';
  }

  /** A call of `navigate(to, { replace })`. */
  datatype Navigation = Navigate(to: string, replace: bool)

  method HandleNavigate(page: Page) returns (nav: Navigation)
    ensures nav == Navigate(Route(page), false)
    ensures GetCurrentPage(nav.to) == page
  {
    nav := Navigate(Route(page), false);
    RouteRoundTrip(page, page, "");
  }

  /** `handleLogout()`: sign out first, then replace the history entry with '/login'. */
  method HandleLogout(auth: AuthProvider, store: Storage) returns (nav: Navigation)
    modifies auth, store
    ensures auth.user == JNull && !auth.IsAuthenticated() && store.items == old(store.items) - {AuthUserKey}
    ensures nav == Navigate("/login", true)
  {
    auth.Logout(store);
    nav := Navigate("/login", true);
  }
}
