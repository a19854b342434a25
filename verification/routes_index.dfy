/**
 * `src/routes/index.js` repeats the guard and the route table of `src/App.js`
 * (its `AppRoutes` component). They are transcribed here on their own and
 * proved to decide exactly as the `AppRoutes` module does, so every property
 * proved there holds for this file as well.
 */
module RoutesIndex {
  import opened Js
  import opened Session
  import App = AppRoutes

  /** `PrivateRoute` as this file writes it. */
  function PrivateRoute(loading: bool, user: Option<Record>, allowedRoles: Option<seq<string>>): (g: App.Guard)
    ensures loading ==> g == App.Placeholder
    ensures !loading && user.None? ==> g == App.Redirect("/")
    ensures g == App.Render <==> !loading && user.Some? && App.Admits(allowedRoles, RoleOf(user.value))
  {
    if loading then App.Placeholder
    else if user.None? then App.Redirect("/")
    else
      var role := RoleOf(user.value);
      if allowedRoles.Some? && !(role.Some? && role.value in allowedRoles.value) then
        if role == Some(INVESTOR) then App.Redirect("/investor/dashboard")
        else if role == Some(ISSUER) then App.Redirect("/issuer/dashboard")
        else if role == Some(ADMIN) then App.Redirect("/admin/dashboard")
        else App.Redirect("/")
      else App.Render
  }

  /** The `<Routes>` of `AppRoutes`. */
  function RouteAt(path: string): (r: App.Route)
    ensures r.Protected? ==> |r.allowedRoles| == 1 && App.IsRole(r.allowedRoles[0])
    ensures r == App.CatchAll ==> App.RouteAt(path) == App.CatchAll
  {
    match path
    case "/" => App.Public(App.Home)
    case "/admin/login" => App.Public(App.AdminLogin)
    case "/investor/login" => App.Public(App.InvestorLogin)
    case "/investor/register" => App.Public(App.InvestorRegister)
    case "/issuer/login" => App.Public(App.IssuerLogin)
    case "/issuer/register" => App.Public(App.IssuerRegister)
    case "/admin/dashboard" => App.Protected(App.AdminDashboard, [ADMIN])
    case "/issuer/dashboard" => App.Protected(App.IssuerDashboard, [ISSUER])
    case "/investor/dashboard" => App.Protected(App.InvestorDashboard, [INVESTOR])
    case _ => App.CatchAll
  }

  /** Both guards return the same decision for every (loading, user, allowedRoles). */
  lemma SameGuardAsApp(loading: bool, user: Option<Record>, allowedRoles: Option<seq<string>>)
    ensures PrivateRoute(loading, user, allowedRoles) == App.PrivateRoute(loading, user, allowedRoles)
  {
  }

  /** Both tables route every path the same way. */
  lemma SameRoutesAsApp(path: string)
    ensures RouteAt(path) == App.RouteAt(path)
  {
  }
}
