/**
 * The HTTP client wrapper (lib/api.ts): a request interceptor that attaches
 * the stored access token as a bearer credential (section 2.1 of RFC 6750),
 * and a response interceptor that answers a 401 Unauthorized (section 15.5.2
 * of RFC 9110) with one refresh of the access token and one replay of the
 * original request.
 */
module Api {
  import opened Wrappers
  import opened KudosTypes
  import opened JsText
  import opened Storage

  const AuthorizationHeader: string := "Authorization"
  /** The authentication scheme name followed by the single space that separates it from the token. */
  const BearerScheme: string := "Bearer "
  const UnauthorizedStatus: int := 401
  /** Where the interceptor sends the window when the session cannot be recovered. */
  const LoginPage: string := "/"

  /** The `Authorization` header value `Bearer <token>`. */
  function BearerCredentials(token: string): (h: string)
    ensures |h| == |BearerScheme| + |token|
    ensures h[..|BearerScheme|] == BearerScheme && h[|BearerScheme|..] == token
  {
    BearerScheme + token
  }

  /** The reading side of a bearer header: the token after the scheme, if the header uses it. */
  function BearerToken(h: string): (t: Option<string>)
    ensures t.Some? <==> |h| >= |BearerScheme| && h[..|BearerScheme|] == BearerScheme
    ensures t.Some? ==> BearerCredentials(t.value) == h
  {
    if |h| >= |BearerScheme| && h[..|BearerScheme|] == BearerScheme then Some(h[|BearerScheme|..]) else None
  }

  /** A server reading the header the client writes gets back exactly the stored token. */
  lemma BearerRoundTrip(token: string)
    ensures BearerToken(BearerCredentials(token)) == Some(token)
  {
  }

  /**
   * The headers after the request interceptor: a bearer credential for a
   * present (non-empty) access token, and the headers untouched otherwise.
   */
  function WithAccessToken(headers: map<string, string>, accessToken: Option<string>): (r: map<string, string>)
    ensures Present(accessToken) ==> AuthorizationHeader in r && BearerToken(r[AuthorizationHeader]) == Some(accessToken.value)
    ensures !Present(accessToken) ==> r == headers
    ensures forall k :: k in headers && k != AuthorizationHeader ==> k in r && r[k] == headers[k]
    ensures r.Keys <= headers.Keys + {AuthorizationHeader}
  {
    if Present(accessToken) then
      BearerRoundTrip(accessToken.value);
      headers[AuthorizationHeader := BearerCredentials(accessToken.value)]
    else
      headers
  }

  /** The response interceptor refreshes exactly on a 401 whose request has not been retried yet. */
  predicate TriggersRefresh(error: ApiError, retried: bool)
    ensures TriggersRefresh(error, retried) ==> error.response.Some? && error.response.value.status == UnauthorizedStatus
    ensures retried ==> !TriggersRefresh(error, retried)
    ensures error.response.None? ==> !TriggersRefresh(error, retried)
  {
    Status(error) == Some(UnauthorizedStatus) && !retried
  }

  /**
   * A request config as the interceptors see it; `retry` is the `_retry`
   * marker. Both fields are changed in place, and the very same object is
   * handed back to the client for the replay.
   */
  class RequestConfig {
    var headers: map<string, string>
    var retry: bool

    constructor (headers: map<string, string>)
      ensures this.headers == headers && !retry
    {
      this.headers := headers;
      retry := false;
    }
  }

  /** How the response interceptor settles an error. */
  datatype Settlement =
    | Rejected(error: ApiError)
      /** `return api(originalRequest)`: the result is whatever the re-sent request yields. */
    | Replayed

  class ApiClient {
    /** The shared local storage the interceptors read and write. */
    const store: TokenStore
    /** `window.location.href` */
    var location: string

    constructor (store: TokenStore, location: string)
      ensures this.store == store && this.location == location
    {
      this.store := store;
      this.location := location;
    }

    /** The request interceptor, run before every request the client sends. */
    method InterceptRequest(config: RequestConfig)
      modifies config
      ensures config.headers == WithAccessToken(old(config.headers), store.GetItem(AccessTokenKey))
      ensures config.retry == old(config.retry)
    {
      var accessToken := store.GetItem(AccessTokenKey);
      if Present(accessToken) {
        config.headers := config.headers[AuthorizationHeader := BearerCredentials(accessToken.value)];
      }
    }

    /**
     * The response interceptor's error handler for `error`, whose request is
     * `config`. `refresh` is the outcome of posting the refresh token to the
     * refresh endpoint with the bare HTTP client (which has no interceptors);
     * it is consulted only when the refresh is actually attempted.
     * `refreshSent` is the refresh token posted, if any.
     */
    method InterceptResponseError(error: ApiError, config: RequestConfig, refresh: Result<string, ApiError>)
      returns (s: Settlement, refreshSent: Option<string>)
      modifies this, store, config
      ensures !TriggersRefresh(error, old(config.retry)) ==>
        && s == Rejected(error) && refreshSent == None
        && store.entries == old(store.entries) && location == old(location)
        && config.headers == old(config.headers) && config.retry == old(config.retry)
      ensures TriggersRefresh(error, old(config.retry)) ==> config.retry
      ensures TriggersRefresh(error, old(config.retry)) && !Present(old(store.GetItem(RefreshTokenKey))) ==>
        && s == Rejected(error) && refreshSent == None
        && store.entries == old(store.entries) && location == LoginPage
        && config.headers == old(config.headers)
      ensures refreshSent.Some? <==> TriggersRefresh(error, old(config.retry)) && Present(old(store.GetItem(RefreshTokenKey)))
      ensures refreshSent.Some? ==> refreshSent == old(store.GetItem(RefreshTokenKey))
      ensures refreshSent.Some? && refresh.Success? ==>
        && s == Replayed
        && store.entries == old(store.entries)[AccessTokenKey := refresh.value] && location == old(location)
        && config.headers == old(config.headers)[AuthorizationHeader := BearerCredentials(refresh.value)]
      ensures refreshSent.Some? && refresh.Failure? ==>
        && s == Rejected(refresh.error)
        && store.entries == Cleared(old(store.entries)) && location == LoginPage
        && config.headers == old(config.headers)
    {
      if Status(error) == Some(UnauthorizedStatus) && !config.retry {
        config.retry := true;
        var refreshToken := store.GetItem(RefreshTokenKey);
        if !Present(refreshToken) {
          location := LoginPage;
          return Rejected(error), None;
        }
        refreshSent := refreshToken;
        match refresh
        case Success(access) =>
          store.SetItem(AccessTokenKey, access);
          config.headers := config.headers[AuthorizationHeader := BearerCredentials(access)];
          s := Replayed;
        case Failure(refreshError) =>
          store.RemoveItem(AccessTokenKey);
          store.RemoveItem(RefreshTokenKey);
          location := LoginPage;
          s := Rejected(refreshError);
      } else {
        s, refreshSent := Rejected(error), None;
      }
    }

    /**
     * One call through the client: the request interceptor, the first
     * transmission (outcome `first`), the response interceptor, and, when it
     * replays, the request interceptor and the second transmission (outcome
     * `replay`) followed by the response interceptor once more. `sent` holds
     * the headers of each transmission in order.
     */
    method Send<T>(config: RequestConfig, first: Result<T, ApiError>, refresh: Result<string, ApiError>, replay: Result<T, ApiError>)
      returns (r: Result<T, ApiError>, sent: seq<map<string, string>>, refreshSent: Option<string>)
      modifies this, store, config
      ensures 1 <= |sent| <= 2
      ensures sent[0] == WithAccessToken(old(config.headers), old(store.GetItem(AccessTokenKey)))
      ensures refreshSent.Some? <==>
        first.Failure? && TriggersRefresh(first.error, old(config.retry)) && Present(old(store.GetItem(RefreshTokenKey)))
      ensures refreshSent.Some? ==> refreshSent == old(store.GetItem(RefreshTokenKey))
      ensures first.Success? ==>
        r == first && |sent| == 1 && store.entries == old(store.entries) && location == old(location)
      ensures first.Failure? && !TriggersRefresh(first.error, old(config.retry)) ==>
        r == first && |sent| == 1 && store.entries == old(store.entries) && location == old(location)
      ensures first.Failure? && TriggersRefresh(first.error, old(config.retry)) && !Present(old(store.GetItem(RefreshTokenKey))) ==>
        r == first && |sent| == 1 && store.entries == old(store.entries) && location == LoginPage
      ensures refreshSent.Some? && refresh.Failure? ==>
        r == Failure(refresh.error) && |sent| == 1 && store.entries == Cleared(old(store.entries)) && location == LoginPage
      ensures refreshSent.Some? && refresh.Success? ==>
        && r == replay && |sent| == 2
        && sent[1] == sent[0][AuthorizationHeader := BearerCredentials(refresh.value)]
        && store.entries == old(store.entries)[AccessTokenKey := refresh.value] && location == old(location)
    {
      InterceptRequest(config);
      sent := [config.headers];
      if first.Success? {
        return first, sent, None;
      }
      var s;
      s, refreshSent := InterceptResponseError(first.error, config, refresh);
      if s.Rejected? {
        return Failure(s.error), sent, refreshSent;
      }
      ghost var replayed := config.headers;
      InterceptRequest(config);
      assert config.headers == replayed;
      sent := sent + [config.headers];
      if replay.Success? {
        return replay, sent, refreshSent;
      }
      // The replayed request carries `retry`, so its failure is rejected unchanged.
      var again, noRefresh := InterceptResponseError(replay.error, config, refresh);
      r := Failure(again.error);
    }
  }
}
