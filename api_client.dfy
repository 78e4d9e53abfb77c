/** The shared axios instance of the main front end: a request interceptor that
    attaches the stored access token as a Bearer credential (section 2.1 of
    RFC 6750), and a response interceptor that answers a 401 with one token
    refresh and one replay of the failed request. */
module ApiClient {
  import opened Wrappers
  import opened Storage
  import opened Session

  const AuthorizationHeader := "Authorization"
  const LoginPath := "/login"

  /** `Bearer ${token}`. */
  function Bearer(token: string): string {
    "Bearer " + token
  }

  /** The headers a request leaves the request interceptor with. */
  function RequestHeaders(headers: map<string, string>, items: map<string, string>, accessKey: string): (h: map<string, string>)
    ensures Truthy(Lookup(items, accessKey)) ==> AuthorizationHeader in h && h[AuthorizationHeader] == Bearer(items[accessKey])
    ensures !Truthy(Lookup(items, accessKey)) ==> h == headers
    // No header other than Authorization is added, removed or changed.
    ensures h.Keys == headers.Keys + (if Truthy(Lookup(items, accessKey)) then {AuthorizationHeader} else {})
    ensures forall k :: k in headers && k != AuthorizationHeader ==> h[k] == headers[k]
  {
    var token := Lookup(items, accessKey);
    if Truthy(token) then headers[AuthorizationHeader := Bearer(token.value)] else headers
  }

  /** How the response interceptor settles the failed request. */
  datatype Outcome =
    | Replay              // `api(originalRequest)`: the request is sent again
    | RejectOriginal      // `Promise.reject(error)`
    | RejectRefreshError  // `Promise.reject(refreshError)`

  /** Everything one pass of the error handler decides: the store, the request's
      `_retry` mark and Authorization header afterwards, whether the page was sent
      to the login path, the refresh POST it sent, and the outcome. */
  datatype ErrorRun = ErrorRun(items: map<string, string>, retry: bool, headers: map<string, string>,
                               redirected: bool, post: Post, outcome: Outcome)

  /** One pass of the response error handler. `status` is the failed reply's
      status (None for a failure without a reply), `retry` the original request's
      `_retry` mark, `reply` the outcome of the refresh POST if one is sent. */
  function HandleError(items: map<string, string>, accessKey: string, refreshKey: string,
                       headers: map<string, string>, status: Option<int>, retry: bool, reply: Reply): (r: ErrorRun)
    // Anything but a first 401 is rejected unchanged, with nothing touched.
    ensures !(status == Some(401) && !retry) ==>
              r == ErrorRun(items, retry, headers, false, NoPost, RejectOriginal)
    // A first 401 marks the request before anything else happens.
    ensures status == Some(401) && !retry ==> r.retry
    // No refresh token: both tokens are dropped, the page goes to login, the original error is rejected.
    ensures status == Some(401) && !retry && !Truthy(Lookup(items, refreshKey)) ==>
              r.items == items - {accessKey, refreshKey} && r.redirected && r.post == NoPost &&
              r.outcome == RejectOriginal && r.headers == headers
    // A refresh token: exactly one POST carrying it.
    ensures status == Some(401) && !retry && Truthy(Lookup(items, refreshKey)) ==>
              r.post == Posted(Lookup(items, refreshKey))
    // A successful refresh stores the new token, rewrites the header and replays once.
    ensures status == Some(401) && !retry && Truthy(Lookup(items, refreshKey)) && !AxiosRejects(reply) ==>
              r.items == items[accessKey := JsString(reply.access)] &&
              r.headers == headers[AuthorizationHeader := Bearer(JsString(reply.access))] &&
              !r.redirected && r.outcome == Replay
    // A failed refresh drops both tokens, goes to login and rejects with the refresh error.
    ensures status == Some(401) && !retry && Truthy(Lookup(items, refreshKey)) && AxiosRejects(reply) ==>
              r.items == items - {accessKey, refreshKey} && r.redirected &&
              r.outcome == RejectRefreshError && r.headers == headers
    // Only a refresh can lead to a replay.
    ensures r.outcome == Replay ==> r.post.Posted?
  {
    if status == Some(401) && !retry then
      var refreshToken := Lookup(items, refreshKey);
      if !Truthy(refreshToken) then
        ErrorRun(items - {accessKey, refreshKey}, true, headers, true, NoPost, RejectOriginal)
      else if AxiosRejects(reply) then
        ErrorRun(items - {accessKey, refreshKey}, true, headers, true, Posted(refreshToken), RejectRefreshError)
      else
        var newAccessToken := JsString(reply.access);
        ErrorRun(items[accessKey := newAccessToken], true, headers[AuthorizationHeader := Bearer(newAccessToken)],
                 false, Posted(refreshToken), Replay)
    else
      ErrorRun(items, retry, headers, false, NoPost, RejectOriginal)
  }

  /** Each original request causes at most one refresh: if its replay fails again,
      whatever the status, the handler sends no second POST and replays no more. */
  lemma AtMostOneRefresh(items: map<string, string>, accessKey: string, refreshKey: string,
                         headers: map<string, string>, status: Option<int>, retry: bool,
                         reply: Reply, status2: Option<int>, reply2: Reply)
    ensures var first := HandleError(items, accessKey, refreshKey, headers, status, retry, reply);
            var second := HandleError(first.items, accessKey, refreshKey, first.headers, status2, first.retry, reply2);
            first.post.Posted? ==> second.post == NoPost && second.outcome == RejectOriginal && second.items == first.items
  {
  }

  /** The replay passes through the request interceptor again; it sets the same
      Authorization header the error handler wrote. */
  lemma ReplayHeaderAgrees(items: map<string, string>, accessKey: string, refreshKey: string,
                           headers: map<string, string>, reply: Reply)
    requires Truthy(Lookup(items, refreshKey)) && !AxiosRejects(reply)
    ensures var r := HandleError(items, accessKey, refreshKey, headers, Some(401), false, reply);
            r.outcome == Replay && RequestHeaders(r.headers, r.items, accessKey) == r.headers
  {
    var r := HandleError(items, accessKey, refreshKey, headers, Some(401), false, reply);
    assert r.items[accessKey] == JsString(reply.access);
  }

  /** The config object of one request, which the interceptors update in place. */
  class RequestConfig {
    var headers: map<string, string>
    var retry: bool

    constructor (headers: map<string, string>)
      ensures this.headers == headers && !retry
    {
      this.headers := headers;
      retry := false;
    }
  }

  /** The axios instance with its two interceptors installed. */
  class Client {
    const storage: LocalStorage
    const accessKey: string
    const refreshKey: string
    /** `window.location.href` once the handler has navigated, if it has. */
    var location: Option<string>

    constructor (storage: LocalStorage, accessKey: string, refreshKey: string)
      ensures this.storage == storage && this.accessKey == accessKey && this.refreshKey == refreshKey
      ensures location == None
    {
      this.storage := storage;
      this.accessKey := accessKey;
      this.refreshKey := refreshKey;
      location := None;
    }

    /** The request interceptor. */
    method InterceptRequest(config: RequestConfig)
      modifies config
      ensures config.headers == RequestHeaders(old(config.headers), storage.items, accessKey)
      ensures config.retry == old(config.retry)
    {
      var token := storage.GetItem(accessKey);
      if Truthy(token) {
        config.headers := config.headers[AuthorizationHeader := Bearer(token.value)];
      }
    }

    /** The response interceptor's error handler for a failed `config` request. */
    method InterceptError(config: RequestConfig, status: Option<int>, reply: Reply) returns (post: Post, outcome: Outcome)
      modifies this, storage, config
      ensures var run := HandleError(old(storage.items), accessKey, refreshKey, old(config.headers), status, old(config.retry), reply);
        storage.items == run.items && config.retry == run.retry && config.headers == run.headers &&
        (location == if run.redirected then Some(LoginPath) else old(location)) &&
        post == run.post && outcome == run.outcome
    {
      post := NoPost;
      if status == Some(401) && !config.retry {
        config.retry := true;
        var refreshToken := storage.GetItem(refreshKey);
        if !Truthy(refreshToken) {
          storage.RemoveItem(accessKey);
          storage.RemoveItem(refreshKey);
          location := Some(LoginPath);
          return post, RejectOriginal;
        }
        post := Posted(refreshToken);
        if AxiosRejects(reply) {
          storage.RemoveItem(accessKey);
          storage.RemoveItem(refreshKey);
          location := Some(LoginPath);
          return post, RejectRefreshError;
        }
        var newAccessToken := JsString(reply.access);
        storage.SetItem(accessKey, newAccessToken);
        config.headers := config.headers[AuthorizationHeader := Bearer(newAccessToken)];
        return post, Replay;
      }
      outcome := RejectOriginal;
    }
  }
}
