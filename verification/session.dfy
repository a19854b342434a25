/**
 * The session manager of `src/context/AuthContext.js` (the `24656c3` side of
 * its merge conflicts): one stored token, an in-memory `user` and a `loading`
 * flag, changed by `checkAuth`, `login`, `register` and `logout`. Every request
 * goes through the shared `api` client, so its 401 eviction applies here too.
 *
 * Each operation is given twice: a step function on a `SessionState` value,
 * about which the properties are proved, and a method of `AuthProvider` that
 * performs it on the live state and is proved to agree with the function.
 */
module Session {
  import opened Js
  import opened Platform
  import opened ApiClient

  /** The role enumeration. */
  const ADMIN := "ADMIN"
  const ISSUER := "ISSUER"
  const INVESTOR := "INVESTOR"

  /** `user.role`, or missing. */
  function RoleOf(u: Record): Option<string>
  {
    Field(u, "role")
  }

  /** What the rest of the application can observe: the stored token, `user`, `loading`. */
  datatype SessionState = SessionState(token: Option<string>, user: Option<Record>, loading: bool)

  /** Body of `GET /auth/check`. */
  datatype CheckBody = CheckBody(authenticated: bool, user: Option<Record>)
  /** Body of a successful `POST /auth/<role>/login` or `/register`. */
  datatype TokenBody = TokenBody(token: Option<string>, user: Option<Record>)
  /** `{success: true, user}` or `{success: false, error}`. */
  datatype AuthResult = Succeeded(user: Record) | Failed(error: string)
  /** A POST the manager issues: path (relative to the base URL) and JSON body. */
  datatype Post = Post(path: string, body: Record)
  /** The state after an operation, and what it returned (`None` for `undefined`). */
  datatype Step = Step(state: SessionState, result: Option<AuthResult>)

  /** `/auth/<lower-cased role>/<action>` */
  function AuthPath(role: string, action: string): string
  {
    "/auth/" + ToLower(role) + "/" + action
  }

  /** `{...serverUser, role: role.toUpperCase()}`: the caller's role overrides the server's. */
  function WithRole(serverUser: Option<Record>, role: string): (u: Record)
    ensures RoleOf(u) == Some(ToUpper(role))
    ensures forall k :: k != "role" ==> Field(u, k) == if serverUser.Some? then Field(serverUser.value, k) else None
  {
    (if serverUser.Some? then serverUser.value else map[])["role" := ToUpper(role)]
  }

  // ---------------------------------------------------------------------------
  // checkAuth

  /** `/auth/check` answered 2xx with `authenticated: true`. */
  predicate Confirms(ex: Exchange<CheckBody>)
  {
    ex.Answered? && IsSuccess(ex.status) && ex.data.authenticated
  }

  /**
   * `checkAuth`: with no stored token nothing is asked and the user is cleared;
   * a confirmed check keeps the token and takes the server's user; any other
   * answer, or none, clears both. Every path ends with `loading == false`.
   */
  function CheckAuthStep(s: SessionState, ex: Exchange<CheckBody>): (t: SessionState)
    ensures !t.loading
    ensures !Truthy(s.token) ==> t.token == s.token && t.user == None
    ensures Truthy(s.token) && Confirms(ex) ==> t.token == s.token && t.user == ex.data.user
    ensures Truthy(s.token) && !Confirms(ex) ==> t.token == None && t.user == None
  {
    if !Truthy(s.token) then
      SessionState(s.token, None, false)
    else
      match Settle(ex)
      case Resolved(body) =>
        if body.authenticated then SessionState(s.token, body.user, false)
        else SessionState(None, None, false)
      case Rejected(_) => SessionState(None, None, false)
  }

  /** Re-running `checkAuth` against the same backend answer changes nothing more. */
  lemma CheckAuthIdempotent(s: SessionState, ex: Exchange<CheckBody>)
    ensures CheckAuthStep(CheckAuthStep(s, ex), ex) == CheckAuthStep(s, ex)
  {
  }

  // ---------------------------------------------------------------------------
  // login and register

  /** A 2xx answer carrying a (truthy) token. */
  predicate Grants(ex: Exchange<TokenBody>)
  {
    ex.Answered? && IsSuccess(ex.status) && Truthy(ex.data.token)
  }

  /**
   * The part `login` and `register` share once the request has been issued:
   * a granted answer stores the token and sets the user (with the caller's
   * role, upper-cased); a 2xx answer without a token changes nothing and
   * returns `undefined`; a failure returns the server's message or `fallback`,
   * leaves the user alone, and loses the stored token only when it was a 401
   * (the client's response step).
   */
  function AuthenticateStep(s: SessionState, role: string, ex: Exchange<TokenBody>, fallback: string): (t: Step)
    ensures t.state.loading == s.loading
    ensures (t.result.Some? && t.result.value.Succeeded?) <==> Grants(ex)
    ensures Grants(ex) ==>
      && t.state.token == ex.data.token
      && t.state.user == Some(t.result.value.user)
      && t.result.value.user == WithRole(ex.data.user, role)
    ensures ex.Answered? && IsSuccess(ex.status) && !Grants(ex) ==> t == Step(s, None)
    ensures !(ex.Answered? && IsSuccess(ex.status)) ==>
      && t.state.user == s.user
      && t.state.token == (if Evicts(ex) then None else s.token)
      && t.result == Some(Failed(if ex.Answered? then OrElse(ex.message, fallback) else fallback))
  {
    match Settle(ex)
    case Resolved(body) =>
      if Truthy(body.token) then
        var u := WithRole(body.user, role);
        Step(s.(token := body.token, user := Some(u)), Some(Succeeded(u)))
      else
        Step(s, None)
    case Rejected(e) =>
      var token := if e.status == Some(401) then None else s.token;
      Step(s.(token := token), Some(Failed(OrElse(e.message, fallback))))
  }

  /** The request `login` issues. */
  function LoginRequest(email: string, password: string, role: string): (p: Post)
    ensures p.path == AuthPath(role, "login")
    ensures p.body.Keys == {"email", "password"} && p.body["email"] == email && p.body["password"] == password
  {
    Post(AuthPath(role, "login"), map["email" := email, "password" := password])
  }

  /** `login({email, password, role})` once the request is answered by `ex`. */
  function LoginStep(s: SessionState, role: string, ex: Exchange<TokenBody>): (t: Step)
    ensures Grants(ex) ==> t.result == Some(Succeeded(WithRole(ex.data.user, role))) && t.state.token == ex.data.token
    ensures !(ex.Answered? && IsSuccess(ex.status)) ==>
      t.result == Some(Failed(if ex.Answered? then OrElse(ex.message, "Invalid credentials") else "Invalid credentials"))
  {
    AuthenticateStep(s, role, ex, "Invalid credentials")
  }

  /**
   * The request `register` issues: the form minus its `role` discriminator,
   * posted under that role. A form without `role` throws before any request.
   */
  function RegisterRequest(form: Record): (p: Option<Post>)
    ensures p.Some? <==> "role" in form
    ensures p.Some? ==> p.value.path == AuthPath(form["role"], "register")
    ensures p.Some? ==> "role" !in p.value.body
    ensures p.Some? ==> forall k :: k != "role" ==> Field(p.value.body, k) == Field(form, k)
  {
    if "role" in form then Some(Post(AuthPath(form["role"], "register"), form - {"role"})) else None
  }

  /** `register(userData)` once the request (if any) is answered by `ex`. */
  function RegisterStep(s: SessionState, form: Record, ex: Exchange<TokenBody>): (t: Step)
    ensures "role" !in form ==> t == Step(s, Some(Failed("Registration failed")))
    ensures "role" in form && Grants(ex) ==>
      t.result == Some(Succeeded(WithRole(ex.data.user, form["role"]))) && t.state.token == ex.data.token
    ensures "role" in form && !(ex.Answered? && IsSuccess(ex.status)) ==>
      t.result == Some(Failed(if ex.Answered? then OrElse(ex.message, "Registration failed") else "Registration failed"))
  {
    if "role" in form then AuthenticateStep(s, form["role"], ex, "Registration failed")
    else Step(s, Some(Failed("Registration failed")))
  }

  // ---------------------------------------------------------------------------
  // logout

  /** `logout`: the stored token and the user are gone, `loading` is untouched. */
  function LogoutStep(s: SessionState): (t: SessionState)
    ensures t.token == None && t.user == None && t.loading == s.loading
  {
    s.(token := None, user := None)
  }

  /** Logging out twice is logging out once. */
  lemma LogoutIdempotent(s: SessionState)
    ensures LogoutStep(LogoutStep(s)) == LogoutStep(s)
  {
  }

  // ---------------------------------------------------------------------------
  // The provider

  class AuthProvider {
    var user: Option<Record>
    var loading: bool
    const api: Client

    function State(): SessionState
      reads this, api.browser
    {
      SessionState(api.browser.token, user, loading)
    }

    /** `useState(null)`, `useState(true)` */
    constructor (api: Client)
      ensures user == None && loading && this.api == api
    {
      user := None;
      loading := true;
      this.api := api;
    }

    /** `checkAuth`, with `/auth/check` answered by `ex`; `sent` holds the request's headers, if one was made. */
    method CheckAuth(ex: Exchange<CheckBody>) returns (sent: Option<Headers>)
      modifies this, api.browser
      ensures State() == CheckAuthStep(old(State()), ex)
      ensures sent.Some? <==> Truthy(old(api.browser.token))
      ensures sent.Some? ==> sent.value == WithBearer(api.config.headers, old(api.browser.token))
      ensures api.browser.href == if sent.Some? && Evicts(ex) then "/" else old(api.browser.href)
    {
      var token := api.browser.token;
      if !Truthy(token) {
        user := None;
        loading := false;
        return None;
      }
      var headers, r := api.Send(ex);
      sent := Some(headers);
      if r.Resolved? && r.data.authenticated {
        user := r.data.user;
      } else {
        user := None;
        api.browser.RemoveToken();
      }
      loading := false;
    }

    /** The shared tail of `login` and `register`. */
    method Authenticate(role: string, ex: Exchange<TokenBody>, fallback: string) returns (result: Option<AuthResult>)
      modifies this, api.browser
      ensures Step(State(), result) == AuthenticateStep(old(State()), role, ex, fallback)
      ensures api.browser.href == if Evicts(ex) then "/" else old(api.browser.href)
    {
      var _, r := api.Send(ex);
      match r
      case Resolved(body) =>
        if Truthy(body.token) {
          api.browser.SetToken(body.token.value);
          var u := WithRole(body.user, role);
          user := Some(u);
          result := Some(Succeeded(u));
        } else {
          result := None;
        }
      case Rejected(e) =>
        result := Some(Failed(OrElse(e.message, fallback)));
    }

    /** `login({email, password, role})`, with the POST answered by `ex`. */
    method Login(email: string, password: string, role: string, ex: Exchange<TokenBody>)
      returns (request: Post, result: Option<AuthResult>)
      modifies this, api.browser
      ensures request == LoginRequest(email, password, role)
      ensures Step(State(), result) == LoginStep(old(State()), role, ex)
      ensures api.browser.href == if Evicts(ex) then "/" else old(api.browser.href)
    {
      request := LoginRequest(email, password, role);
      result := Authenticate(role, ex, "Invalid credentials");
    }

    /** `register(userData)`, with the POST (if one is made) answered by `ex`. */
    method Register(form: Record, ex: Exchange<TokenBody>) returns (request: Option<Post>, result: Option<AuthResult>)
      modifies this, api.browser
      ensures request == RegisterRequest(form)
      ensures Step(State(), result) == RegisterStep(old(State()), form, ex)
      ensures api.browser.href == if request.Some? && Evicts(ex) then "/" else old(api.browser.href)
    {
      request := RegisterRequest(form);
      if "role" !in form {
        return request, Some(Failed("Registration failed"));
      }
      result := Authenticate(form["role"], ex, "Registration failed");
    }

    /** `logout()`: always `{success: true}`. */
    method Logout() returns (success: bool)
      modifies this, api.browser
      ensures State() == LogoutStep(old(State()))
      ensures success
      ensures api.browser.href == old(api.browser.href)
    {
      api.browser.RemoveToken();
      user := None;
      success := true;
    }
  }
}
