/**
 * The shared HTTP client (`src/utils/axios.js`): base-URL derivation from the
 * page location, the request step that attaches the stored token as a bearer
 * credential (section 2.1 of RFC 6750), and the response step that evicts the
 * stored token on HTTP 401.
 *
 * A network round trip is not modelled: its outcome is an input, an
 * `Exchange<T>` — either an answer (status, body, the body's `message` field)
 * or no answer at all (timeout, DNS failure, offline).
 */
module ApiClient {
  import opened Js
  import opened Platform

  type Headers = map<string, string>

  /** `window.location`: protocol (with its colon), hostname and port ("" when default). */
  datatype PageLocation = PageLocation(protocol: string, hostname: string, port: string)

  const LocalApi := "http://localhost:5000/api"

  /** "localhost" has no 'n', so it cannot include "ngrok". */
  lemma LocalhostIsNotNgrok()
    ensures !Contains("localhost", "ngrok")
  {
    forall i | 0 <= i <= |"localhost"| - |"ngrok"|
      ensures !OccursAt("localhost", "ngrok", i)
    {
      assert "localhost"[i] != 'n';
    }
  }

  /**
   * `getBaseUrl()`: the fixed development address on localhost; otherwise the
   * page's own origin (with its port when one is given) followed by `/api`.
   * The source's extra "hostname includes ngrok" test never changes the result.
   */
  function BaseUrl(loc: PageLocation): (url: string)
    ensures loc.hostname == "localhost" ==> url == LocalApi
    ensures loc.hostname != "localhost" ==>
      url == loc.protocol + "//" + loc.hostname + (if loc.port == "" then "" else ":" + loc.port) + "/api"
    ensures |url| >= 4 && url[|url| - 4..] == "/api"
  {
    LocalhostIsNotNgrok();
    if Contains(loc.hostname, "ngrok") || loc.hostname != "localhost" then
      var origin := loc.protocol + "//" + loc.hostname;
      var port := if loc.port != "" then ":" + loc.port else "";
      origin + port + "/api"
    else
      LocalApi
  }

  /** The options given to `axios.create`. */
  datatype Config = Config(baseUrl: string, headers: Headers, withCredentials: bool, timeoutMs: nat)

  const Authorization := "Authorization"
  const BearerScheme := "Bearer "

  /** The token carried by an `Authorization: Bearer <token>` header value, if it is one. */
  function ParseBearer(value: string): Option<string>
  {
    if |value| >= |BearerScheme| && value[..|BearerScheme|] == BearerScheme
    then Some(value[|BearerScheme|..])
    else None
  }

  /**
   * The request step's effect on a request's headers: with a (truthy) stored
   * token, `Authorization` carries it as a bearer credential; every other header
   * is left as it was, and without a token nothing changes.
   */
  function WithBearer(headers: Headers, token: Option<string>): (h: Headers)
    ensures Truthy(token) ==> Authorization in h && ParseBearer(h[Authorization]) == token
    ensures forall k :: k != Authorization ==> (k in h <==> k in headers)
    ensures forall k :: k in h && k != Authorization ==> h[k] == headers[k]
    ensures !Truthy(token) ==> h == headers
  {
    if Truthy(token) then
      var v := BearerScheme + token.value;
      assert v[..|BearerScheme|] == BearerScheme;
      headers[Authorization := v]
    else
      headers
  }

  /** The outcome of one round trip, as delivered to the client. */
  datatype Exchange<+T> =
    | Answered(status: int, data: T, message: Option<string>)
    | Unanswered

  /** What a rejected call hands to its `catch`: `error.response?.status` and `error.response?.data?.message`. */
  datatype ApiError = ApiError(status: Option<int>, message: Option<string>)

  datatype Settled<+T> = Resolved(data: T) | Rejected(error: ApiError)

  predicate IsSuccess(status: int)
  {
    200 <= status < 300
  }

  /** How an axios call settles: a 2xx answer resolves with its body, anything else rejects. */
  function Settle<T>(ex: Exchange<T>): (r: Settled<T>)
    ensures r.Resolved? <==> ex.Answered? && IsSuccess(ex.status)
    ensures r.Resolved? ==> r.data == ex.data
    ensures r.Rejected? && ex.Answered? ==> r.error == ApiError(Some(ex.status), ex.message)
    ensures r.Rejected? && ex.Unanswered? ==> r.error == ApiError(None, None)
  {
    match ex
    case Answered(status, data, message) =>
      if IsSuccess(status) then Resolved(data) else Rejected(ApiError(Some(status), message))
    case Unanswered => Rejected(ApiError(None, None))
  }

  /** The answers on which the response step evicts the stored token. */
  predicate Evicts<T>(ex: Exchange<T>)
  {
    ex.Answered? && ex.status == 401
  }

  /** The `api` instance. */
  class Client {
    const config: Config
    const browser: Browser

    constructor (loc: PageLocation, browser: Browser)
      ensures config.baseUrl == BaseUrl(loc)
      ensures config.headers == map["Content-Type" := "application/json"]
      ensures config.withCredentials && config.timeoutMs == 10000
      ensures this.browser == browser
    {
      config := Config(BaseUrl(loc), map["Content-Type" := "application/json"], true, 10000);
      this.browser := browser;
    }

    /** The request step: reads the store and decorates the outgoing headers. */
    method AttachToken(headers: Headers) returns (sent: Headers)
      ensures sent == WithBearer(headers, browser.token)
    {
      sent := WithBearer(headers, browser.token);
    }

    /**
     * The response step: successes pass through; a 401 empties the store and
     * sends the browser to `/`; every failure is still rejected to the caller,
     * so nothing is retried.
     */
    method Intercept<T>(ex: Exchange<T>) returns (r: Settled<T>)
      modifies browser
      ensures r == Settle(ex)
      ensures browser.token == if Evicts(ex) then None else old(browser.token)
      ensures browser.href == if Evicts(ex) then "/" else old(browser.href)
    {
      r := Settle(ex);
      if r.Rejected? && r.error.status == Some(401) {
        browser.RemoveToken();
        browser.Assign("/");
      }
    }

    /** One call through `api`: the request step, the round trip `ex`, the response step. */
    method Send<T>(ex: Exchange<T>) returns (sent: Headers, r: Settled<T>)
      modifies browser
      ensures sent == WithBearer(config.headers, old(browser.token))
      ensures r == Settle(ex)
      ensures browser.token == if Evicts(ex) then None else old(browser.token)
      ensures browser.href == if Evicts(ex) then "/" else old(browser.href)
    {
      sent := AttachToken(config.headers);
      r := Intercept(ex);
    }
  }
}
