/**
 * The page frame: a loading screen while the session loads, a redirect to
 * the sign-in page for a protected route without a user, and otherwise the
 * page with a background chosen by path, the navigation bar for signed-in
 * users and a footer for signed-in users on windows at least 400 pixels
 * wide.
 *
 * The window width is an input; the resize listener that updates it is
 * not modelled.
 */
module Layout {
  import opened Text

  datatype Background = Hero | DashboardImage | Gradient | NoBackground

  /** `getBackground`: "/" exactly, then the path prefixes in order. */
  function BackgroundFor(path: string): (b: Background)
    ensures path == "/" ==> b == Hero
    ensures path != "/" && StartsWith(path, "/dashboard") ==> b == DashboardImage
    ensures path != "/" && !StartsWith(path, "/dashboard") && StartsWith(path, "/analytics") ==> b == Gradient
    ensures path != "/" && !StartsWith(path, "/dashboard") && !StartsWith(path, "/analytics") && StartsWith(path, "/home") ==> b == DashboardImage
    ensures b == NoBackground <==>
              path != "/" && !StartsWith(path, "/dashboard") && !StartsWith(path, "/analytics") && !StartsWith(path, "/home")
  {
    if path == "/" then Hero
    else if StartsWith(path, "/dashboard") then DashboardImage
    else if StartsWith(path, "/analytics") then Gradient
    else if StartsWith(path, "/home") then DashboardImage
    else NoBackground
  }

  /** The hero image belongs to the root path alone: "/" is compared, not used as a prefix. */
  lemma HeroOnlyAtRoot(path: string)
    ensures BackgroundFor(path) == Hero <==> path == "/"
  {
  }

  /** Sub-paths of a section keep the section's background, and an unknown page under "/" has none. */
  lemma SectionBackgrounds(rest: string)
    ensures BackgroundFor("/dashboard" + rest) == DashboardImage
    ensures BackgroundFor("/analytics" + rest) == Gradient
    ensures BackgroundFor("/home" + rest) == DashboardImage
    ensures BackgroundFor("/about") == NoBackground
  {
    assert ("/dashboard" + rest)[..10] == "/dashboard";
    assert ("/analytics" + rest)[..10] == "/analytics";
    assert ("/home" + rest)[..5] == "/home";
    assert ("/analytics" + rest)[1] == 'a';
    assert ("/home" + rest)[1] == 'h';
    assert "/about"[1] == 'a';
  }

  datatype Screen =
    | LoadingScreen
    | Redirect(to: string)
    | Page(background: Background, navigation: bool, paddedMain: bool, footer: bool)

  /** What the frame renders for the session state, the route and the window. */
  function Render(loading: bool, protectedRoute: bool, signedIn: bool, windowWidth: int, path: string): (s: Screen)
    ensures loading ==> s == LoadingScreen
    ensures !loading && protectedRoute && !signedIn ==> s == Redirect("/signin")
    ensures s.Page? <==> !loading && (!protectedRoute || signedIn)
    ensures s.Page? ==> s.background == BackgroundFor(path)
    ensures s.Page? ==> (s.navigation <==> signedIn) && (s.paddedMain <==> signedIn)
    ensures s.Page? ==> (s.footer <==> signedIn && windowWidth >= 400)
  {
    if loading then LoadingScreen
    else if protectedRoute && !signedIn then Redirect("/signin")
    else Page(BackgroundFor(path), signedIn, signedIn, signedIn && windowWidth >= 400)
  }

  /** The footer never shows without the navigation bar. */
  lemma FooterNeedsNavigation(loading: bool, protectedRoute: bool, signedIn: bool, windowWidth: int, path: string)
    ensures var s := Render(loading, protectedRoute, signedIn, windowWidth, path);
            s.Page? && s.footer ==> s.navigation
  {
  }
}
