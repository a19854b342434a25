/**
 * The issuer application of `src/App.jsx`: an authentication-only guard fed
 * by the token-based provider, and a three-entry route table.
 */
module IssuerApp {
  import opened Js
  import AppRoutes
  import TokenAuth

  /**
   * `ProtectedRoute`: the placeholder while loading, `/login` when not
   * authenticated, the children otherwise; no role is consulted.
   */
  function ProtectedRoute(loading: bool, isAuthenticated: bool): (g: AppRoutes.Guard)
    ensures loading ==> g == AppRoutes.Placeholder
    ensures !loading && !isAuthenticated ==> g == AppRoutes.Redirect("/login")
    ensures g == AppRoutes.Render <==> !loading && isAuthenticated
  {
    if loading then AppRoutes.Placeholder
    else if !isAuthenticated then AppRoutes.Redirect("/login")
    else AppRoutes.Render
  }

  datatype Page = LoginPage | IssuerDashboardPage

  datatype Route = Open(page: Page) | Guarded(page: Page) | RedirectTo(path: string)

  /** The `<Routes>` table; a path it does not list matches nothing. */
  function RouteAt(path: string): (r: Option<Route>)
    ensures r.Some? <==> path == "/login" || path == "/issuer/dashboard" || path == "/"
    ensures r.Some? && r.value.RedirectTo? ==> path == "/" && r.value.path == "/login"
  {
    match path
    case "/login" => Some(Open(LoginPage))
    case "/issuer/dashboard" => Some(Guarded(IssuerDashboardPage))
    case "/" => Some(RedirectTo("/login"))
    case _ => None
  }

  /** `/issuer/dashboard` is the only guarded route, and `/` always leads to the open `/login`. */
  lemma RouteTableShape(path: string)
    ensures (RouteAt(path).Some? && RouteAt(path).value.Guarded?) <==> path == "/issuer/dashboard"
    ensures RouteAt("/") == Some(RedirectTo("/login")) && RouteAt("/login") == Some(Open(LoginPage))
  {
  }

  /** Once the provider is in sync, the guard admits exactly the holders of a (truthy) token. */
  lemma GuardFollowsToken(p: TokenAuth.AuthProvider)
    requires p.InSync()
    ensures ProtectedRoute(p.loading, p.isAuthenticated) == AppRoutes.Render <==> Truthy(p.token)
  {
  }
}
