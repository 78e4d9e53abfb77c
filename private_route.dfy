/** `PrivateRoute` of the legacy front end. It has the same shape as
    `ProtectedRoute`, with two differences in the code as written: the refresh
    POST is not awaited, so `resp === 200` compares a promise with 200, and a
    decode error escapes `auth` and is caught by the effect's `.catch`. */
module PrivateRoute {
  import opened Wrappers
  import opened Storage
  import opened Session
  import ProtectedRoute

  /** The redirect target, a path relative to the current route. */
  const LoginPath := "login"

  /** One evaluation of the code as written. The refresh reply is not a parameter:
      the un-awaited promise is never inspected, so no reply can change the outcome. */
  function AuthRun(items: map<string, string>, accessKey: string, refreshKey: string,
                   decode: string -> Decoded, nowMs: int): (r: ProtectedRoute.Run)
    ensures !Truthy(Lookup(items, accessKey)) ==> !r.authorized && r.post == NoPost
    ensures Truthy(Lookup(items, accessKey)) && decode(items[accessKey]).Malformed? ==>
              !r.authorized && r.post == NoPost
    ensures Truthy(Lookup(items, accessKey)) && decode(items[accessKey]).Claims? ==>
              (r.authorized <==> !ExpiredAt(decode(items[accessKey]).exp, nowMs))
    // The request is sent exactly when the token is expired, and then the run
    // always ends unauthorized.
    ensures r.post.Posted? <==> Truthy(Lookup(items, accessKey)) && decode(items[accessKey]).Claims? &&
                                ExpiredAt(decode(items[accessKey]).exp, nowMs)
    ensures r.post.Posted? ==> !r.authorized && r.post == Posted(Lookup(items, refreshKey))
    // Nothing is ever written to the store.
    ensures r.items == items
  {
    var token := Lookup(items, accessKey);
    if !Truthy(token) then ProtectedRoute.Run(false, items, NoPost)
    else
      match decode(token.value)
      case Malformed => ProtectedRoute.Run(false, items, NoPost)
      case Claims(exp) =>
        if ExpiredAt(exp, nowMs) then ProtectedRoute.Run(false, items, Posted(Lookup(items, refreshKey)))
        else ProtectedRoute.Run(true, items, NoPost)
  }

  /** Even a refresh that the server answers with 200 and a new token leaves the
      user unauthorized and the token unstored. */
  lemma ExpiredSessionNeverRenews(accessKey: string, refreshKey: string, nowMs: int)
    requires accessKey != refreshKey
    ensures var items := map[accessKey := "old", refreshKey := "r"];
            var decode := (t: string) => Claims(Some(0));
            nowMs > 0 ==>
              var run := AuthRun(items, accessKey, refreshKey, decode, nowMs);
              run.post.Posted? && !run.authorized && run.items[accessKey] == "old"
  {
  }

  /** The evidently intended evaluation: await the POST and test its status. */
  function AuthRunIntended(items: map<string, string>, accessKey: string, refreshKey: string,
                           decode: string -> Decoded, nowMs: int, reply: Reply): (r: ProtectedRoute.Run)
    ensures Truthy(Lookup(items, accessKey)) && decode(items[accessKey]).Claims? &&
            ExpiredAt(decode(items[accessKey]).exp, nowMs) ==>
              r.post == Posted(Lookup(items, refreshKey)) &&
              (r.authorized <==> reply.Reply? && reply.status == 200) &&
              (r.authorized ==> r.items == items[accessKey := JsString(reply.access)])
    ensures !r.post.Posted? ==> r.items == items
  {
    var token := Lookup(items, accessKey);
    if !Truthy(token) then ProtectedRoute.Run(false, items, NoPost)
    else
      match decode(token.value)
      case Malformed => ProtectedRoute.Run(false, items, NoPost)
      case Claims(exp) =>
        if !ExpiredAt(exp, nowMs) then ProtectedRoute.Run(true, items, NoPost)
        else
          var post := Posted(Lookup(items, refreshKey));
          if !AxiosRejects(reply) && reply.status == 200
          then ProtectedRoute.Run(true, items[accessKey := JsString(reply.access)], post)
          else ProtectedRoute.Run(false, items, post)
  }

  /** The intended legacy guard and the main front end's guard agree when configured
      with the same storage keys; the as-written guard agrees with both except on the
      expired path. */
  lemma IntendedMatchesProtectedRoute(items: map<string, string>, decode: string -> Decoded, nowMs: int, reply: Reply)
    ensures AuthRunIntended(items, ProtectedRoute.AccessKey, ProtectedRoute.RefreshKey, decode, nowMs, reply)
         == ProtectedRoute.AuthRun(items, decode, nowMs, reply)
    ensures var r := AuthRun(items, ProtectedRoute.AccessKey, ProtectedRoute.RefreshKey, decode, nowMs);
            !r.post.Posted? ==> r == ProtectedRoute.AuthRun(items, decode, nowMs, reply)
  {
  }

  function ViewOf(isAuthorized: Option<bool>): (v: View)
    ensures isAuthorized == None <==> v == Loading
    ensures isAuthorized == Some(true) <==> v == Children
    ensures isAuthorized == Some(false) <==> v == Redirect(LoginPath)
  {
    match isAuthorized
    case None => Loading
    case Some(ok) => if ok then Children else Redirect(LoginPath)
  }

  /** One mounted legacy guard; the storage keys are the app's configured constants. */
  class Guard {
    var isAuthorized: Option<bool>
    const storage: LocalStorage
    const accessKey: string
    const refreshKey: string

    constructor (storage: LocalStorage, accessKey: string, refreshKey: string)
      ensures isAuthorized == None && this.storage == storage
      ensures this.accessKey == accessKey && this.refreshKey == refreshKey
    {
      isAuthorized := None;
      this.storage := storage;
      this.accessKey := accessKey;
      this.refreshKey := refreshKey;
    }

    function Render(): View
      reads this
    {
      ViewOf(isAuthorized)
    }

    /** `refresh_token()`: the POST is started and its promise compared with 200. */
    method RefreshToken() returns (post: Post)
      modifies this
      ensures isAuthorized == Some(false) && post == Posted(Lookup(storage.items, refreshKey))
    {
      var refreshToken := storage.GetItem(refreshKey);
      post := Posted(refreshToken);
      // `resp` is a pending promise, never the number 200, so only the
      // else branch can run.
      isAuthorized := Some(false);
    }

    /** The mount effect: `auth().catch(() => setIsAuthorized(false))`. */
    method Auth(decode: string -> Decoded, nowMs: int) returns (post: Post)
      modifies this
      ensures var run := AuthRun(storage.items, accessKey, refreshKey, decode, nowMs);
        isAuthorized == Some(run.authorized) && post == run.post
      ensures Render() != Loading
    {
      var token := storage.GetItem(accessKey);
      if !Truthy(token) {
        isAuthorized := Some(false);
        return NoPost;
      }
      var decoded := decode(token.value);
      if decoded.Malformed? {
        // jwtDecode throws; the rejection reaches the effect's `.catch`.
        isAuthorized := Some(false);
        return NoPost;
      }
      if ExpiredAt(decoded.exp, nowMs) {
        post := RefreshToken();
      } else {
        isAuthorized := Some(true);
        post := NoPost;
      }
    }
  }
}
