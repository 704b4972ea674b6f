/**
 * The browser-side API client: a request interceptor that puts the stored access token in
 * the `x-auth-token` header, a response interceptor that answers a first 401 with one
 * refresh and one replay, and logout, which forgets both tokens.
 */
module ApiClient {
  import opened Wrappers
  import opened Http

  const ACCESS_TOKEN_KEY := "accessToken"
  const REFRESH_TOKEN_KEY := "refreshToken"
  const AUTH_HEADER := "x-auth-token"
  const LOGIN_PATH := "/login"

  /** `localStorage.getItem(key)` read as a condition: a missing or empty value is no token. */
  function StoredToken(storage: map<string, string>, key: string): Option<string>
  {
    if key in storage && storage[key] != "" then Some(storage[key]) else None
  }

  /** axios rejects every status outside 2xx. */
  predicate IsErrorStatus(status: int)
  {
    !(200 <= status < 300)
  }

  /** The browser state the client touches: its local storage and its address. */
  class Browser {
    var storage: map<string, string>
    var location: string

    constructor (storage: map<string, string>, location: string)
      ensures this.storage == storage && this.location == location
    {
      this.storage := storage;
      this.location := location;
    }

    method SetItem(key: string, value: string)
      modifies this
      ensures storage == old(storage)[key := value] && location == old(location)
    {
      storage := storage[key := value];
    }

    method RemoveItem(key: string)
      modifies this
      ensures storage == old(storage) - {key} && location == old(location)
    {
      storage := storage - {key};
    }

    /** `window.location.href = path`. */
    method Navigate(path: string)
      modifies this
      ensures location == path && storage == old(storage)
    {
      location := path;
    }
  }

  /** An outgoing request's configuration: its headers and the `_retry` mark. */
  class Request {
    var headers: map<string, string>
    var retry: bool

    constructor (headers: map<string, string>)
      ensures this.headers == headers && !retry
    {
      this.headers := headers;
      retry := false;
    }
  }

  /** The request interceptor: the header is set exactly when an access token is stored. */
  method InterceptRequest(browser: Browser, req: Request)
    modifies req
    ensures ACCESS_TOKEN_KEY in browser.storage && browser.storage[ACCESS_TOKEN_KEY] != "" ==>
      req.headers == old(req.headers)[AUTH_HEADER := browser.storage[ACCESS_TOKEN_KEY]]
    ensures ACCESS_TOKEN_KEY !in browser.storage || browser.storage[ACCESS_TOKEN_KEY] == "" ==>
      req.headers == old(req.headers)
    ensures req.retry == old(req.retry)
  {
    var token := StoredToken(browser.storage, ACCESS_TOKEN_KEY);
    if token.Some? {
      req.headers := req.headers[AUTH_HEADER := token.value];
    }
  }

  /** What `POST /auth/refresh` gave: a new access token, or an error. */
  datatype RefreshOutcome = Refreshed(accessToken: string) | RefreshFailed

  /** Which error a rejection passes on. */
  datatype Rejection = OriginalError | RefreshError

  /** The response interceptor's verdict: replay the request, or reject. */
  datatype Verdict = Replay | Reject(reason: Rejection)

  /**
   * The response interceptor's error handler. Only a 401 on a request not yet retried is
   * handled: the request is marked, and without a stored refresh token the browser goes to
   * the login page; otherwise one refresh is made, whose outcome either stores the new
   * access token and replays the request with it, or forgets both tokens and goes to login.
   */
  method InterceptResponseError(browser: Browser, req: Request, status: int, refresh: RefreshOutcome)
    returns (verdict: Verdict, refreshCalled: bool)
    modifies browser, req
    ensures status != UNAUTHORIZED || old(req.retry) ==>
      && verdict == Reject(OriginalError) && !refreshCalled
      && req.retry == old(req.retry) && req.headers == old(req.headers)
      && browser.storage == old(browser.storage) && browser.location == old(browser.location)
    ensures status == UNAUTHORIZED && !old(req.retry) ==> req.retry
    ensures status == UNAUTHORIZED && !old(req.retry) && (REFRESH_TOKEN_KEY !in old(browser.storage) || old(browser.storage)[REFRESH_TOKEN_KEY] == "") ==>
      && verdict == Reject(OriginalError) && !refreshCalled
      && req.headers == old(req.headers)
      && browser.storage == old(browser.storage) && browser.location == LOGIN_PATH
    ensures status == UNAUTHORIZED && !old(req.retry) && REFRESH_TOKEN_KEY in old(browser.storage) && old(browser.storage)[REFRESH_TOKEN_KEY] != "" ==>
      && refreshCalled
      && (refresh.Refreshed? ==>
            && verdict == Replay
            && browser.storage == old(browser.storage)[ACCESS_TOKEN_KEY := refresh.accessToken]
            && req.headers == old(req.headers)[AUTH_HEADER := refresh.accessToken]
            && browser.location == old(browser.location))
      && (refresh.RefreshFailed? ==>
            && verdict == Reject(RefreshError)
            && browser.storage == old(browser.storage) - {ACCESS_TOKEN_KEY, REFRESH_TOKEN_KEY}
            && req.headers == old(req.headers)
            && browser.location == LOGIN_PATH)
  {
    refreshCalled := false;
    if status != UNAUTHORIZED || req.retry {
      return Reject(OriginalError), false;
    }
    req.retry := true;
    var refreshToken := StoredToken(browser.storage, REFRESH_TOKEN_KEY);
    if refreshToken.None? {
      browser.Navigate(LOGIN_PATH);
      return Reject(OriginalError), false;
    }
    refreshCalled := true;
    match refresh {
      case Refreshed(accessToken) =>
        browser.SetItem(ACCESS_TOKEN_KEY, accessToken);
        req.headers := req.headers[AUTH_HEADER := accessToken];
        verdict := Replay;
      case RefreshFailed =>
        browser.RemoveItem(ACCESS_TOKEN_KEY);
        browser.RemoveItem(REFRESH_TOKEN_KEY);
        assert browser.storage == old(browser.storage) - {ACCESS_TOKEN_KEY} - {REFRESH_TOKEN_KEY};
        browser.Navigate(LOGIN_PATH);
        verdict := Reject(RefreshError);
    }
  }

  /** How one call through the client ended. */
  datatype Delivery = Delivered(status: int) | Failed(reason: Rejection)

  /**
   * One call through both interceptors: the server answers `firstStatus`, and if the call is
   * replayed it answers `replayStatus`. However the server answers, at most one refresh is
   * made, and a replay carries the refreshed token.
   */
  method Send(browser: Browser, req: Request, firstStatus: int, refresh: RefreshOutcome, replayStatus: int)
    returns (delivery: Delivery, refreshes: nat)
    requires !req.retry
    modifies browser, req
    ensures refreshes <= 1
    ensures !IsErrorStatus(firstStatus) ==> delivery == Delivered(firstStatus) && refreshes == 0
    ensures IsErrorStatus(firstStatus) && firstStatus != UNAUTHORIZED ==>
      delivery == Failed(OriginalError) && refreshes == 0 && browser.storage == old(browser.storage)
    ensures refreshes == 1 && refresh.Refreshed? ==>
      && AUTH_HEADER in req.headers && req.headers[AUTH_HEADER] == refresh.accessToken
      && browser.storage == old(browser.storage)[ACCESS_TOKEN_KEY := refresh.accessToken]
      && delivery == (if IsErrorStatus(replayStatus) then Failed(OriginalError) else Delivered(replayStatus))
  {
    InterceptRequest(browser, req);
    refreshes := 0;
    if !IsErrorStatus(firstStatus) {
      return Delivered(firstStatus), 0;
    }
    var verdict, called := InterceptResponseError(browser, req, firstStatus, refresh);
    if called {
      refreshes := 1;
    }
    if verdict.Reject? {
      return Failed(verdict.reason), refreshes;
    }
    // The replay goes through the request interceptor again, which reads the new token.
    InterceptRequest(browser, req);
    if !IsErrorStatus(replayStatus) {
      return Delivered(replayStatus), refreshes;
    }
    var second, calledAgain := InterceptResponseError(browser, req, replayStatus, refresh);
    refreshes := refreshes + (if calledAgain then 1 else 0);
    delivery := Failed(second.reason);
  }

  /** `authAPI.logout`: both tokens are forgotten once the server has answered the POST. */
  method Logout(browser: Browser, serverOk: bool) returns (done: bool)
    modifies browser
    ensures done == serverOk
    ensures serverOk ==> browser.storage == old(browser.storage) - {ACCESS_TOKEN_KEY, REFRESH_TOKEN_KEY}
    ensures !serverOk ==> browser.storage == old(browser.storage)
    ensures browser.location == old(browser.location)
  {
    done := false;
    if serverOk {
      browser.RemoveItem(ACCESS_TOKEN_KEY);
      browser.RemoveItem(REFRESH_TOKEN_KEY);
      assert browser.storage == old(browser.storage) - {ACCESS_TOKEN_KEY} - {REFRESH_TOKEN_KEY};
      done := true;
    }
  }

  /** After logout neither token is stored, so the next request goes out without the header. */
  lemma NoTokenAfterLogout(storage: map<string, string>)
    ensures StoredToken(storage - {ACCESS_TOKEN_KEY, REFRESH_TOKEN_KEY}, ACCESS_TOKEN_KEY).None?
    ensures StoredToken(storage - {ACCESS_TOKEN_KEY, REFRESH_TOKEN_KEY}, REFRESH_TOKEN_KEY).None?
  {
  }

  /** An empty refreshed token is stored, yet later requests go out without the header. */
  lemma EmptyRefreshedTokenIsNoToken(storage: map<string, string>)
    ensures StoredToken(storage[ACCESS_TOKEN_KEY := ""], ACCESS_TOKEN_KEY).None?
  {
  }
}
