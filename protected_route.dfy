/** `ProtectedRoute` of the main front end: on mount it reads `access_token`,
    checks the `exp` claim against the clock, refreshes once if the token has
    expired, and then renders the protected view or redirects to `/login`. */
module ProtectedRoute {
  import opened Wrappers
  import opened Storage
  import opened Session

  const AccessKey := "access_token"
  const RefreshKey := "refresh_token"
  const LoginPath := "/login"

  /** The result of one guard evaluation: the decision, the store afterwards,
      and the refresh request it sent. */
  datatype Run = Run(authorized: bool, items: map<string, string>, post: Post)

  /** `refreshToken()`: one POST with the stored refresh token (absent or not);
      only a reply with status 200 stores `resp.data.access` and authorizes. */
  function RefreshRun(items: map<string, string>, reply: Reply): (r: Run)
    ensures r.post == Posted(Lookup(items, RefreshKey))
    ensures r.authorized <==> reply.Reply? && reply.status == 200
    ensures r.authorized ==> r.items == items[AccessKey := JsString(reply.access)]
    ensures !r.authorized ==> r.items == items
  {
    var post := Posted(Lookup(items, RefreshKey));
    if AxiosRejects(reply) then Run(false, items, post)
    else if reply.status == 200 then Run(true, items[AccessKey := JsString(reply.access)], post)
    else Run(false, items, post)
  }

  /** `auth()` followed by the effect's `.catch`, as one evaluation. */
  function AuthRun(items: map<string, string>, decode: string -> Decoded, nowMs: int, reply: Reply): (r: Run)
    // No stored token (or an empty one): unauthorized, no request, nothing written.
    ensures !Truthy(Lookup(items, AccessKey)) ==> !r.authorized && r.post == NoPost && r.items == items
    // A token that does not decode: unauthorized, no request, nothing written.
    ensures Truthy(Lookup(items, AccessKey)) && decode(items[AccessKey]).Malformed? ==>
              !r.authorized && r.post == NoPost && r.items == items
    // A decodable token that has not expired (`exp == now` included): authorized without a request.
    ensures Truthy(Lookup(items, AccessKey)) && decode(items[AccessKey]).Claims? &&
            !ExpiredAt(decode(items[AccessKey]).exp, nowMs) ==>
              r.authorized && r.post == NoPost && r.items == items
    // An expired token: exactly one refresh request, even with no refresh token stored.
    ensures Truthy(Lookup(items, AccessKey)) && decode(items[AccessKey]).Claims? &&
            ExpiredAt(decode(items[AccessKey]).exp, nowMs) ==>
              r == RefreshRun(items, reply) &&
              r.post == Posted(Lookup(items, RefreshKey)) &&
              (r.authorized <==> reply.Reply? && reply.status == 200) &&
              (r.authorized ==> r.items == items[AccessKey := JsString(reply.access)])
    // Only a successful refresh writes, and it writes the access token only.
    ensures r.items == items || (reply.Reply? && r.items == items[AccessKey := JsString(reply.access)])
    ensures r.items != items ==> r.authorized && r.post.Posted?
    // The refresh token is never written or removed.
    ensures Lookup(r.items, RefreshKey) == Lookup(items, RefreshKey)
  {
    var token := Lookup(items, AccessKey);
    if !Truthy(token) then Run(false, items, NoPost)
    else
      match decode(token.value)
      case Malformed => Run(false, items, NoPost)
      case Claims(exp) =>
        if ExpiredAt(exp, nowMs) then RefreshRun(items, reply) else Run(true, items, NoPost)
  }

  /** The rendered view for a value of the `isAuthorized` state. */
  function ViewOf(isAuthorized: Option<bool>): (v: View)
    ensures isAuthorized == None <==> v == Loading
    ensures isAuthorized == Some(true) <==> v == Children
    ensures isAuthorized == Some(false) <==> v == Redirect(LoginPath)
  {
    match isAuthorized
    case None => Loading
    case Some(ok) => if ok then Children else Redirect(LoginPath)
  }

  /** One mounted guard: its `isAuthorized` state and the store it reads and writes. */
  class Guard {
    var isAuthorized: Option<bool>
    const storage: LocalStorage

    constructor (storage: LocalStorage)
      ensures isAuthorized == None && this.storage == storage
    {
      isAuthorized := None;
      this.storage := storage;
    }

    /** The render decision. */
    function Render(): View
      reads this
    {
      ViewOf(isAuthorized)
    }

    method RefreshToken(reply: Reply) returns (post: Post)
      modifies this, storage
      ensures var run := RefreshRun(old(storage.items), reply);
        isAuthorized == Some(run.authorized) && storage.items == run.items && post == run.post
    {
      var refreshToken := storage.GetItem(RefreshKey);
      post := Posted(refreshToken);
      if AxiosRejects(reply) {
        isAuthorized := Some(false);
      } else if reply.status == 200 {
        storage.SetItem(AccessKey, JsString(reply.access));
        isAuthorized := Some(true);
      } else {
        isAuthorized := Some(false);
      }
    }

    /** The mount effect: `auth().catch(() => setIsAuthorized(false))`. The clock
        and the decoder are parameters; `reply` is what the refresh request gets. */
    method Auth(decode: string -> Decoded, nowMs: int, reply: Reply) returns (post: Post)
      modifies this, storage
      ensures var run := AuthRun(old(storage.items), decode, nowMs, reply);
        isAuthorized == Some(run.authorized) && storage.items == run.items && post == run.post
      ensures Render() != Loading
    {
      var token := storage.GetItem(AccessKey);
      if !Truthy(token) {
        isAuthorized := Some(false);
        return NoPost;
      }
      var decoded := decode(token.value);
      if decoded.Malformed? {
        isAuthorized := Some(false);
        return NoPost;
      }
      if ExpiredAt(decoded.exp, nowMs) {
        post := RefreshToken(reply);
      } else {
        isAuthorized := Some(true);
        post := NoPost;
      }
    }
  }
}
