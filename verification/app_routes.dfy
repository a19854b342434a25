/**
 * The role router of `src/App.js`: the `PrivateRoute` guard, a total decision
 * on (`loading`, `user`, `allowedRoles`), and the route table that puts each
 * dashboard behind it with exactly one allowed role, plus a catch-all to `/`.
 */
module AppRoutes {
  import opened Js
  import opened ApiClient
  import opened Session

  /** What the guard returns: the loading placeholder, a `<Navigate>`, or the protected element. */
  datatype Guard = Placeholder | Redirect(to: string) | Render

  predicate IsRole(r: string)
  {
    r == ADMIN || r == ISSUER || r == INVESTOR
  }

  /** The dashboard a wrong-role user is sent to; `/` for a role outside the enumeration. */
  function DashboardFor(role: Option<string>): (to: string)
    ensures to == "/" <==> !(role.Some? && IsRole(role.value))
  {
    if role == Some(INVESTOR) then "/investor/dashboard"
    else if role == Some(ISSUER) then "/issuer/dashboard"
    else if role == Some(ADMIN) then "/admin/dashboard"
    else "/"
  }

  /** `!allowedRoles || allowedRoles.includes(user.role)` */
  predicate Admits(allowedRoles: Option<seq<string>>, role: Option<string>)
  {
    allowedRoles.None? || (role.Some? && role.value in allowedRoles.value)
  }

  /**
   * `PrivateRoute`: a placeholder while loading (never the element, never a
   * redirect), `/` without a user, the user's own dashboard for a wrong role,
   * and the element exactly when loaded, signed in and admitted.
   */
  function PrivateRoute(loading: bool, user: Option<Record>, allowedRoles: Option<seq<string>>): (g: Guard)
    ensures loading ==> g == Placeholder
    ensures !loading && user.None? ==> g == Redirect("/")
    ensures g == Render <==> !loading && user.Some? && Admits(allowedRoles, RoleOf(user.value))
    ensures !loading && user.Some? && !Admits(allowedRoles, RoleOf(user.value)) ==>
      g == Redirect(DashboardFor(RoleOf(user.value)))
  {
    if loading then Placeholder
    else if user.None? then Redirect("/")
    else if allowedRoles.Some? && !(RoleOf(user.value).Some? && RoleOf(user.value).value in allowedRoles.value) then
      var role := RoleOf(user.value);
      if role == Some(INVESTOR) then Redirect("/investor/dashboard")
      else if role == Some(ISSUER) then Redirect("/issuer/dashboard")
      else if role == Some(ADMIN) then Redirect("/admin/dashboard")
      else Redirect("/")
    else Render
  }

  datatype Page =
    | Home
    | AdminLogin | InvestorLogin | InvestorRegister | IssuerLogin | IssuerRegister
    | AdminDashboard | IssuerDashboard | InvestorDashboard

  /** A `<Route>`: an open page, a page behind `PrivateRoute`, or the catch-all redirect to `/`. */
  datatype Route = Public(page: Page) | Protected(page: Page, allowedRoles: seq<string>) | CatchAll

  /** The `<Routes>` table. */
  function RouteAt(path: string): (r: Route)
    ensures r.Protected? ==> |r.allowedRoles| == 1 && IsRole(r.allowedRoles[0]) && DashboardFor(Some(r.allowedRoles[0])) == path
    ensures r == Public(Home) <==> path == "/"
  {
    match path
    case "/" => Public(Home)
    case "/admin/login" => Public(AdminLogin)
    case "/investor/login" => Public(InvestorLogin)
    case "/investor/register" => Public(InvestorRegister)
    case "/issuer/login" => Public(IssuerLogin)
    case "/issuer/register" => Public(IssuerRegister)
    case "/admin/dashboard" => Protected(AdminDashboard, [ADMIN])
    case "/issuer/dashboard" => Protected(IssuerDashboard, [ISSUER])
    case "/investor/dashboard" => Protected(InvestorDashboard, [INVESTOR])
    case _ => CatchAll
  }

  /** The outcome of visiting a path: a page on screen, the loading placeholder, or a redirect. */
  datatype Screen = Shows(page: Page) | Waiting | GoesTo(path: string)

  function Visit(path: string, loading: bool, user: Option<Record>): (r: Screen)
    ensures r == Waiting <==> loading && RouteAt(path).Protected?
    ensures RouteAt(path).Protected? && r.Shows? ==>
      user.Some? && Admits(Some(RouteAt(path).allowedRoles), RoleOf(user.value))
  {
    match RouteAt(path)
    case Public(p) => Shows(p)
    case Protected(p, roles) =>
      (match PrivateRoute(loading, user, Some(roles))
       case Placeholder => Waiting
       case Redirect(to) => GoesTo(to)
       case Render => Shows(p))
    case CatchAll => GoesTo("/")
  }

  /** Each role's dashboard is guarded and admits that role and no other. */
  lemma DashboardAdmitsOnlyItsRole(role: string, other: string)
    requires IsRole(role)
    ensures RouteAt(DashboardFor(Some(role))).Protected?
    ensures other in RouteAt(DashboardFor(Some(role))).allowedRoles <==> other == role
  {
  }

  /** A role outside the enumeration is sent to `/`, which is the open home page. */
  lemma UnknownRoleGoesHome(role: Option<string>)
    requires !(role.Some? && IsRole(role.value))
    ensures DashboardFor(role) == "/" && RouteAt(DashboardFor(role)) == Public(Home)
  {
  }

  /**
   * A wrong-role redirect for a known role lands on a route that admits the
   * role, so evaluating the guard there renders.
   */
  lemma WrongRoleRedirectAdmits(user: Record, allowedRoles: seq<string>)
    requires RoleOf(user).Some? && IsRole(RoleOf(user).value)
    requires RoleOf(user).value !in allowedRoles
    ensures PrivateRoute(false, Some(user), Some(allowedRoles)).Redirect?
    ensures var target := PrivateRoute(false, Some(user), Some(allowedRoles)).to;
      && RouteAt(target).Protected?
      && PrivateRoute(false, Some(user), Some(RouteAt(target).allowedRoles)) == Render
  {
  }

  /**
   * Once loading is over, every path shows a page either at once or after a
   * single redirect: no redirect chain and no loop, whoever is signed in.
   */
  lemma NavigationSettles(path: string, user: Option<Record>)
    ensures Visit(path, false, user).Shows? ||
      (Visit(path, false, user).GoesTo? && Visit(Visit(path, false, user).path, false, user).Shows?)
  {
    match RouteAt(path)
    case Public(_) =>
    case CatchAll =>
      assert Visit("/", false, user) == Shows(Home);
    case Protected(p, roles) =>
      if user.Some? && !Admits(Some(roles), RoleOf(user.value)) {
        var role := RoleOf(user.value);
        if role.Some? && IsRole(role.value) {
          WrongRoleRedirectAdmits(user.value, roles);
        } else {
          UnknownRoleGoesHome(role);
        }
      }
  }

  /** Unknown paths redirect to `/`. */
  lemma UnknownPathGoesHome(path: string, loading: bool, user: Option<Record>)
    requires RouteAt(path) == CatchAll
    ensures Visit(path, loading, user) == GoesTo("/")
  {
  }

  /**
   * After a granted login for one of the three roles (any letter case), the
   * new user's own dashboard renders once loading is over.
   */
  lemma LoginOpensOwnDashboard(s: SessionState, role: string, ex: Exchange<TokenBody>)
    requires Grants(ex) && IsRole(ToUpper(role))
    ensures var user := LoginStep(s, role, ex).state.user;
      && user.Some? && RoleOf(user.value) == Some(ToUpper(role))
      && Visit(DashboardFor(Some(ToUpper(role))), false, user).Shows?
  {
  }
}
