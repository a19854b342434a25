/**
 * The per-route guard of `src/components/ProtectedRoute.js`: it asks
 * `/auth/check` through the shared client itself and admits the visitor when
 * the answer is authenticated and lists the route's role.
 */
module RoleGuard {
  import opened Js
  import opened ApiClient
  import AppRoutes

  /** Body of `GET /auth/check` as this guard reads it. */
  datatype RolesBody = RolesBody(authenticated: bool, roles: Option<seq<string>>)

  /**
   * The answer admits `role`: 2xx, `authenticated`, and `roles` includes it.
   * (With `authenticated` set but no `roles`, `includes` throws and the guard
   * stays shut.)
   */
  predicate Admits(ex: Exchange<RolesBody>, role: string)
  {
    ex.Answered? && IsSuccess(ex.status) && ex.data.authenticated
    && ex.data.roles.Some? && role in ex.data.roles.value
  }

  /** `/<lower-cased role>/login` */
  function LoginPathFor(role: string): (p: string)
    ensures |p| == |role| + 7
    ensures p[..1] == "/" && p[1..|p| - 6] == ToLower(role) && p[|p| - 6..] == "/login"
  {
    "/" + ToLower(role) + "/login"
  }

  /** For each of the three roles the redirect target is that role's open login page of `src/App.js`. */
  lemma LoginPathsAreLoginPages()
    ensures AppRoutes.RouteAt(LoginPathFor("ADMIN")) == AppRoutes.Public(AppRoutes.AdminLogin)
    ensures AppRoutes.RouteAt(LoginPathFor("ISSUER")) == AppRoutes.Public(AppRoutes.IssuerLogin)
    ensures AppRoutes.RouteAt(LoginPathFor("INVESTOR")) == AppRoutes.Public(AppRoutes.InvestorLogin)
  {
    assert ToLower("ADMIN") == "admin";
    assert LoginPathFor("ADMIN") == "/admin/login";
    assert ToLower("ISSUER") == "issuer";
    assert LoginPathFor("ISSUER") == "/issuer/login";
    assert ToLower("INVESTOR") == "investor";
    assert LoginPathFor("INVESTOR") == "/investor/login";
  }

  class ProtectedRoute {
    const role: string
    const api: Client
    var isAuthenticated: bool
    var userRole: Option<string>
    var loading: bool

    constructor (role: string, api: Client)
      ensures this.role == role && this.api == api
      ensures !isAuthenticated && userRole == None && loading
    {
      this.role := role;
      this.api := api;
      isAuthenticated := false;
      userRole := None;
      loading := true;
    }

    /**
     * The effect's `checkAuth`, with the request answered by `ex`. An admitting
     * answer authenticates and records the first listed role; nothing ever
     * resets the flag; `loading` is false afterwards whatever happened.
     */
    method CheckAuth(ex: Exchange<RolesBody>)
      modifies this`isAuthenticated, this`userRole, this`loading, api.browser
      ensures !loading
      ensures isAuthenticated == (old(isAuthenticated) || Admits(ex, role))
      ensures userRole == if Admits(ex, role) then Some(ex.data.roles.value[0]) else old(userRole)
      ensures api.browser.token == if Evicts(ex) then None else old(api.browser.token)
      ensures api.browser.href == if Evicts(ex) then "/" else old(api.browser.href)
    {
      var _, r := api.Send(ex);
      if r.Resolved? && r.data.authenticated && r.data.roles.Some? && role in r.data.roles.value {
        isAuthenticated := true;
        userRole := Some(r.data.roles.value[0]);
      }
      loading := false;
    }

    /** What the guard renders now. */
    function Decision(): (g: AppRoutes.Guard)
      reads this
      ensures loading ==> g == AppRoutes.Placeholder
      ensures !loading && !isAuthenticated ==> g == AppRoutes.Redirect(LoginPathFor(role))
      ensures g == AppRoutes.Render <==> !loading && isAuthenticated
    {
      if loading then AppRoutes.Placeholder
      else if !isAuthenticated then AppRoutes.Redirect(LoginPathFor(role))
      else AppRoutes.Render
    }
  }
}
