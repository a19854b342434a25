/**
 * The token-based provider of `src/contexts/AuthContext.jsx`: it keeps the
 * token in component state as well as in the store, mirrors it into the
 * default `Authorization` header of the global axios instance, and verifies it
 * once on mount. It talks to plain `axios`, not to the shared `api` client, so
 * no 401 eviction is involved.
 */
module TokenAuth {
  import opened Js
  import opened Platform
  import opened ApiClient

  /** Body of `GET /api/auth/verify`. */
  datatype VerifyBody = VerifyBody(success: bool, user: Option<Record>)

  /** The verification answered 2xx with `success: true`. */
  predicate Verified(ex: Exchange<VerifyBody>)
  {
    ex.Answered? && IsSuccess(ex.status) && ex.data.success
  }

  /** The default headers the token effect leaves behind for a given token. */
  function HeadersFor(common: Headers, token: Option<string>): (h: Headers)
    ensures Truthy(token) ==> Authorization in h && ParseBearer(h[Authorization]) == token
    ensures !Truthy(token) ==> Authorization !in h
    ensures forall k :: k != Authorization ==> (k in h <==> k in common)
    ensures forall k :: k != Authorization && k in h ==> h[k] == common[k]
  {
    if Truthy(token) then WithBearer(common, token) else common - {Authorization}
  }

  class AuthProvider {
    const browser: Browser
    var token: Option<string>
    var currentUser: Option<Record>
    var loading: bool
    var isAuthenticated: bool
    /** `axios.defaults.headers.common` */
    var commonHeaders: Headers

    /** The state the token effect establishes: the flag and the default header follow the token. */
    predicate InSync()
      reads this
    {
      && !loading
      && isAuthenticated == Truthy(token)
      && commonHeaders == HeadersFor(commonHeaders, token)
    }

    /** The initial token is whatever the store holds. */
    constructor (browser: Browser, common: Headers)
      ensures this.browser == browser && token == browser.token
      ensures currentUser == None && loading && !isAuthenticated && commonHeaders == common
    {
      this.browser := browser;
      token := browser.token;
      currentUser := None;
      loading := true;
      isAuthenticated := false;
      commonHeaders := common;
    }

    /** The effect on `[token]`. */
    method TokenEffect()
      modifies this`commonHeaders, this`isAuthenticated, this`loading
      ensures commonHeaders == HeadersFor(old(commonHeaders), token)
      ensures InSync()
    {
      if Truthy(token) {
        commonHeaders := commonHeaders[Authorization := BearerScheme + token.value];
        isAuthenticated := true;
      } else {
        commonHeaders := commonHeaders - {Authorization};
        isAuthenticated := false;
      }
      loading := false;
    }

    /** `login(token, user)` */
    method Login(t: string, user: Record)
      modifies this`token, this`currentUser, this`isAuthenticated, browser`token
      ensures browser.token == Some(t) && token == Some(t)
      ensures currentUser == Some(user) && isAuthenticated
    {
      browser.SetToken(t);
      token := Some(t);
      currentUser := Some(user);
      isAuthenticated := true;
    }

    /** `logout()`; its result does not depend on the state before, so a second call changes nothing. */
    method Logout()
      modifies this`token, this`currentUser, this`isAuthenticated, browser`token
      ensures browser.token == None && token == None
      ensures currentUser == None && !isAuthenticated
    {
      browser.RemoveToken();
      token := None;
      currentUser := None;
      isAuthenticated := false;
    }

    /**
     * `verifyToken`, with `/api/auth/verify` answered by `ex`: no token, no
     * request; a verified answer sets the user; anything else logs out.
     * `loading` is false on every path. `sent` holds the request's headers.
     */
    method VerifyToken(ex: Exchange<VerifyBody>) returns (sent: Option<Headers>)
      modifies this`token, this`currentUser, this`isAuthenticated, this`loading, browser`token
      ensures !loading
      ensures sent == if Truthy(old(token)) then Some(old(commonHeaders)) else None
      ensures !Truthy(old(token)) ==>
        && token == old(token) && currentUser == old(currentUser)
        && isAuthenticated == old(isAuthenticated) && browser.token == old(browser.token)
      ensures Truthy(old(token)) && Verified(ex) ==>
        && token == old(token) && browser.token == old(browser.token)
        && currentUser == ex.data.user && isAuthenticated
      ensures Truthy(old(token)) && !Verified(ex) ==>
        && token == None && browser.token == None
        && currentUser == None && !isAuthenticated
    {
      loading := true;
      if !Truthy(token) {
        loading := false;
        return None;
      }
      sent := Some(commonHeaders);
      var r := Settle(ex);
      if r.Resolved? && r.data.success {
        currentUser := r.data.user;
        isAuthenticated := true;
      } else {
        Logout();
      }
      loading := false;
    }

    /**
     * Mounting: the token effect, then the verification effect, then the token
     * effect once more when verification changed the token (a logout).
     * The provider ends in sync, signed in exactly when the stored token was
     * present and verified.
     */
    method Mount(ex: Exchange<VerifyBody>)
      requires token == browser.token
      modifies this, browser`token
      ensures InSync()
      ensures isAuthenticated <==> Truthy(old(token)) && Verified(ex)
      ensures token == browser.token
      ensures isAuthenticated ==> currentUser == ex.data.user
    {
      TokenEffect();
      var before := token;
      var _ := VerifyToken(ex);
      if token != before {
        TokenEffect();
      }
    }
  }
}
