/** Route resolution: the static path table of `AppRoutes` and the two guards
    `ProtectedRoute` and `AuthRoute`, as one pure function of the two session
    flags and the requested path. */
module Routes {

  datatype Page =
    | Landing | Login | Signup | Onboarding
    | Dashboard | Health | Safety | Career | Community | Finance | Stories | Profile | Settings
    | NotFound

  /** Which guard wraps a route's page. */
  datatype Guard = Open | AuthOnly | Protected

  datatype Route = Route(guard: Guard, page: Page)

  /** What the router shows: the page, or a `<Navigate>` to another path;
      `replace` tells whether it overwrites the current history entry. */
  datatype Outcome = Render(page: Page) | Redirect(target: string, replace: bool)

  /** The nine paths wrapped in `ProtectedRoute`. */
  const ProtectedPaths: set<string> :=
    {"/dashboard", "/health", "/safety", "/career", "/community",
     "/finance", "/stories", "/profile", "/settings"}

  /** The two paths wrapped in `AuthRoute`. */
  const AuthPaths: set<string> := {"/login", "/signup"}

  /** The route table; every other path falls through to the catch-all. */
  function RouteFor(path: string): (r: Route)
    ensures r.guard == Protected <==> path in ProtectedPaths
    ensures r.guard == AuthOnly <==> path in AuthPaths
    ensures r.page == NotFound <==> path !in ProtectedPaths + AuthPaths + {"/", "/onboarding"}
  {
    match path
    case "/" => Route(Open, Landing)
    case "/login" => Route(AuthOnly, Login)
    case "/signup" => Route(AuthOnly, Signup)
    case "/onboarding" => Route(Open, Onboarding)
    case "/dashboard" => Route(Protected, Dashboard)
    case "/health" => Route(Protected, Health)
    case "/safety" => Route(Protected, Safety)
    case "/career" => Route(Protected, Career)
    case "/community" => Route(Protected, Community)
    case "/finance" => Route(Protected, Finance)
    case "/stories" => Route(Protected, Stories)
    case "/profile" => Route(Protected, Profile)
    case "/settings" => Route(Protected, Settings)
    case _ => Route(Open, NotFound)
  }

  /** Not signed in: to /login; signed in but not onboarded: to /onboarding;
      otherwise the page. Both redirects replace the history entry. */
  function ProtectedRoute(isAuthenticated: bool, hasCompletedOnboarding: bool, page: Page): (r: Outcome)
    ensures r.Render? <==> isAuthenticated && hasCompletedOnboarding
    ensures r.Render? ==> r.page == page
    ensures r.Redirect? ==> r.replace && r.target == (if isAuthenticated then "/onboarding" else "/login")
  {
    if !isAuthenticated then Redirect("/login", true)
    else if !hasCompletedOnboarding then Redirect("/onboarding", true)
    else Render(page)
  }

  /** Signed in and onboarded: to /dashboard, replacing; otherwise the page,
      even for a signed-in user who has not finished onboarding. */
  function AuthRoute(isAuthenticated: bool, hasCompletedOnboarding: bool, page: Page): (r: Outcome)
    ensures r.Redirect? <==> isAuthenticated && hasCompletedOnboarding
    ensures r.Redirect? ==> r.replace && r.target == "/dashboard"
    ensures r.Render? ==> r.page == page
  {
    if isAuthenticated && hasCompletedOnboarding then Redirect("/dashboard", true)
    else Render(page)
  }

  /** What the router shows for `path` in the given session state. */
  function Resolve(isAuthenticated: bool, hasCompletedOnboarding: bool, path: string): (r: Outcome)
    ensures r.Render? ==> r.page == RouteFor(path).page
    ensures r.Redirect? ==> r.replace && r.target in {"/login", "/onboarding", "/dashboard"}
    ensures r.Redirect? <==> match RouteFor(path).guard
                             case Open => false
                             case AuthOnly => isAuthenticated && hasCompletedOnboarding
                             case Protected => !(isAuthenticated && hasCompletedOnboarding)
  {
    var route := RouteFor(path);
    match route.guard
    case Open => Render(route.page)
    case AuthOnly => AuthRoute(isAuthenticated, hasCompletedOnboarding, route.page)
    case Protected => ProtectedRoute(isAuthenticated, hasCompletedOnboarding, route.page)
  }

  /** A protected path sends anyone not signed in to /login, whatever the
      onboarding flag says. */
  lemma ProtectedNeedsLogin(hasCompletedOnboarding: bool, path: string)
    requires path in ProtectedPaths
    ensures Resolve(false, hasCompletedOnboarding, path) == Redirect("/login", true)
  {
  }

  /** A signed-in user who has not finished onboarding is sent to /onboarding;
      one who has sees the page itself. */
  lemma ProtectedNeedsOnboarding(hasCompletedOnboarding: bool, path: string)
    requires path in ProtectedPaths
    ensures Resolve(true, hasCompletedOnboarding, path)
            == if hasCompletedOnboarding then Render(RouteFor(path).page) else Redirect("/onboarding", true)
    ensures RouteFor(path).page != NotFound
  {
  }

  /** /login and /signup redirect to /dashboard exactly when the user is
      signed in and onboarded, and render otherwise. */
  lemma AuthPagesRedirectIffOnboarded(isAuthenticated: bool, hasCompletedOnboarding: bool, path: string)
    requires path in AuthPaths
    ensures Resolve(isAuthenticated, hasCompletedOnboarding, path).Redirect?
            <==> isAuthenticated && hasCompletedOnboarding
    ensures Resolve(isAuthenticated, hasCompletedOnboarding, path).Redirect? ==>
            Resolve(isAuthenticated, hasCompletedOnboarding, path).target == "/dashboard"
    ensures Resolve(isAuthenticated, hasCompletedOnboarding, path).Render? ==>
            Resolve(isAuthenticated, hasCompletedOnboarding, path).page == (if path == "/login" then Login else Signup)
  {
  }

  /** The landing page and the onboarding wizard render in every state. */
  lemma OpenPagesAlwaysRender(isAuthenticated: bool, hasCompletedOnboarding: bool)
    ensures Resolve(isAuthenticated, hasCompletedOnboarding, "/") == Render(Landing)
    ensures Resolve(isAuthenticated, hasCompletedOnboarding, "/onboarding") == Render(Onboarding)
  {
  }

  /** Any path outside the table renders NotFound in every state. */
  lemma UnknownPathsNotFound(isAuthenticated: bool, hasCompletedOnboarding: bool, path: string)
    requires path !in ProtectedPaths + AuthPaths + {"/", "/onboarding"}
    ensures Resolve(isAuthenticated, hasCompletedOnboarding, path) == Render(NotFound)
  {
  }

  /** A guard's redirect target itself renders: chains have length at most
      one. Every guard redirect replaces the history entry. */
  lemma RedirectChainsEndAfterOneStep(isAuthenticated: bool, hasCompletedOnboarding: bool, path: string)
    ensures Resolve(isAuthenticated, hasCompletedOnboarding, path).Redirect? ==>
            var target := Resolve(isAuthenticated, hasCompletedOnboarding, path).target;
            Resolve(isAuthenticated, hasCompletedOnboarding, target).Render?
    ensures Resolve(isAuthenticated, hasCompletedOnboarding, path).Redirect? ==>
            Resolve(isAuthenticated, hasCompletedOnboarding, path).replace
  {
    var route := RouteFor(path);
    if route.guard == Protected && !isAuthenticated {
      assert RouteFor("/login").guard == AuthOnly;
    } else if route.guard == Protected && !hasCompletedOnboarding {
      assert RouteFor("/onboarding").guard == Open;
    } else if route.guard == AuthOnly && isAuthenticated && hasCompletedOnboarding {
      assert RouteFor("/dashboard").guard == Protected;
    }
  }

  /** The session history, most recent entry last. A navigation pushes an
      entry; a guard redirect overwrites the newest one. */
  function Push(history: seq<string>, path: string): seq<string> {
    history + [path]
  }

  function Replace(history: seq<string>, path: string): seq<string>
    requires history != []
  {
    history[..|history| - 1] + [path]
  }

  /** Navigating to `path`: push it, then follow the guard's redirect, if any,
      by replacing. Returns the new history and the page shown. */
  function Visit(history: seq<string>, isAuthenticated: bool, hasCompletedOnboarding: bool, path: string): (r: (seq<string>, Page))
    ensures |r.0| == |history| + 1 && r.0[..|history|] == history
    ensures Resolve(isAuthenticated, hasCompletedOnboarding, r.0[|history|]) == Render(r.1)
    ensures Resolve(isAuthenticated, hasCompletedOnboarding, path).Render? ==> r.0[|history|] == path
  {
    var pushed := Push(history, path);
    match Resolve(isAuthenticated, hasCompletedOnboarding, path)
    case Render(page) => (pushed, page)
    case Redirect(target, replace) =>
      RedirectChainsEndAfterOneStep(isAuthenticated, hasCompletedOnboarding, path);
      var next := if replace then Replace(pushed, target) else Push(pushed, target);
      (next, Resolve(isAuthenticated, hasCompletedOnboarding, target).page)
  }

  /** A page the guard refused is never left in the history, so the back
      button cannot return to it. */
  lemma RefusedPageNotInHistory(history: seq<string>, isAuthenticated: bool, hasCompletedOnboarding: bool, path: string)
    requires Resolve(isAuthenticated, hasCompletedOnboarding, path).Redirect?
    ensures var (h, _) := Visit(history, isAuthenticated, hasCompletedOnboarding, path);
            && h[|history|] == Resolve(isAuthenticated, hasCompletedOnboarding, path).target
            && h[|history|] != path && h == history + [h[|history|]]
  {
    var (h, _) := Visit(history, isAuthenticated, hasCompletedOnboarding, path);
    assert h == history + [h[|history|]];
  }
}
