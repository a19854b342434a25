/**
 * The OAuth landing component of `src/utils/GoogleLoginCallback.js`: it takes
 * the token from the query string, stores it, and navigates once, to a
 * dashboard chosen by the words in the callback path.
 */
module OAuthCallback {
  import opened Js
  import opened Platform
  import AppRoutes

  /** `params[i]` is the first parameter named `key`, and its value is `value`. */
  predicate FirstMatchAt(params: seq<(string, string)>, key: string, value: string, i: int)
  {
    && 0 <= i < |params| && params[i] == (key, value)
    && forall j :: 0 <= j < i ==> params[j].0 != key
  }

  /** `new URLSearchParams(search).get(key)`: the first value under `key`, or missing. */
  function QueryGet(params: seq<(string, string)>, key: string): (v: Option<string>)
    ensures v.Some? ==> exists i :: FirstMatchAt(params, key, v.value, i)
    ensures v.None? <==> forall i :: 0 <= i < |params| ==> params[i].0 != key
  {
    if params == [] then None
    else if params[0].0 == key then
      assert FirstMatchAt(params, key, params[0].1, 0);
      Some(params[0].1)
    else
      var v := QueryGet(params[1..], key);
      if v.Some? then FirstMatchShifts(params, key, v.value); v else v
  }

  /** A first match in the tail of a list whose head does not match is a first match in the whole list. */
  lemma FirstMatchShifts(params: seq<(string, string)>, key: string, value: string)
    requires params != [] && params[0].0 != key
    requires exists i :: FirstMatchAt(params[1..], key, value, i)
    ensures exists i :: FirstMatchAt(params, key, value, i)
  {
    var i :| FirstMatchAt(params[1..], key, value, i);
    assert params[i + 1] == (key, value);
    forall j | 0 <= j < i + 1
      ensures params[j].0 != key
    {
      if j > 0 {
        assert params[j] == params[1..][j - 1];
      }
    }
    assert FirstMatchAt(params, key, value, i + 1);
  }

  /** The dashboard for a callback path: `admin` wins over `issuer`, which wins over `investor`; otherwise `/`. */
  function DashboardForPath(path: string): (to: string)
    ensures Contains(path, "admin") ==> to == "/admin/dashboard"
    ensures !Contains(path, "admin") && Contains(path, "issuer") ==> to == "/issuer/dashboard"
    ensures !Contains(path, "admin") && !Contains(path, "issuer") && Contains(path, "investor") ==>
      to == "/investor/dashboard"
    ensures !Contains(path, "admin") && !Contains(path, "issuer") && !Contains(path, "investor") ==> to == "/"
  {
    if Contains(path, "admin") then "/admin/dashboard"
    else if Contains(path, "issuer") then "/issuer/dashboard"
    else if Contains(path, "investor") then "/investor/dashboard"
    else "/"
  }

  /**
   * Every navigation target after a token arrives is a route of `src/App.js`,
   * and a dashboard target admits exactly the role the path names.
   */
  lemma CallbackTargetsAreRoutes(path: string)
    ensures AppRoutes.RouteAt(DashboardForPath(path)) != AppRoutes.CatchAll
    ensures Contains(path, "admin") ==>
      AppRoutes.RouteAt(DashboardForPath(path)).allowedRoles == ["ADMIN"]
    ensures !Contains(path, "admin") && Contains(path, "issuer") ==>
      AppRoutes.RouteAt(DashboardForPath(path)).allowedRoles == ["ISSUER"]
    ensures !Contains(path, "admin") && !Contains(path, "issuer") && Contains(path, "investor") ==>
      AppRoutes.RouteAt(DashboardForPath(path)).allowedRoles == ["INVESTOR"]
    ensures !Contains(path, "admin") && !Contains(path, "issuer") && !Contains(path, "investor") ==>
      AppRoutes.RouteAt(DashboardForPath(path)) == AppRoutes.Public(AppRoutes.Home)
  {
  }

  /** `/login`, the target when no token arrives, is not a route of `src/App.js`: there it falls to the catch-all. */
  lemma LoginIsNotAnAppRoute()
    ensures AppRoutes.RouteAt("/login") == AppRoutes.CatchAll
  {
  }

  /**
   * The effect: with a (truthy) `token` parameter the token is stored before
   * navigating to the path's dashboard; without one the store is left alone
   * and the single navigation goes to `/login`.
   */
  method HandleCallback(browser: Browser, params: seq<(string, string)>, pathname: string)
    returns (navigateTo: string)
    modifies browser`token
    ensures Truthy(QueryGet(params, "token")) ==>
      browser.token == QueryGet(params, "token") && navigateTo == DashboardForPath(pathname)
    ensures !Truthy(QueryGet(params, "token")) ==>
      browser.token == old(browser.token) && navigateTo == "/login"
  {
    var token := QueryGet(params, "token");
    if Truthy(token) {
      browser.SetToken(token.value);
      navigateTo := DashboardForPath(pathname);
    } else {
      navigateTo := "/login";
    }
  }
}
