/** `authService` of the main front end: the token-store side of login and logout. */
module AuthService {
  import opened Wrappers
  import opened Storage

  const AccessKey := "access_token"
  const RefreshKey := "refresh_token"

  /** The JSON body of the login reply, reduced to the two token fields. */
  datatype LoginData = LoginData(access: Option<string>, refresh: Option<string>)

  /** The store after `login` received `data`: both tokens are written only when
      `data.access` is truthy (a missing `refresh` is stored as "undefined"). */
  function LoginItems(items: map<string, string>, data: LoginData): (r: map<string, string>)
    ensures Truthy(data.access) ==> r == items[AccessKey := data.access.value][RefreshKey := JsString(data.refresh)]
    ensures !Truthy(data.access) ==> r == items
    // No key but the two token keys is affected.
    ensures forall k :: k != AccessKey && k != RefreshKey ==> Lookup(r, k) == Lookup(items, k)
  {
    if Truthy(data.access) then items[AccessKey := data.access.value][RefreshKey := JsString(data.refresh)]
    else items
  }

  /** `isAuthenticated()` on a snapshot of the store. */
  predicate Authenticated(items: map<string, string>) {
    Truthy(Lookup(items, AccessKey))
  }

  /** A login whose reply carries a truthy access token leaves the user
      authenticated; one without leaves the authentication state as it was. */
  lemma LoginAuthenticates(items: map<string, string>, data: LoginData)
    ensures Truthy(data.access) ==> Authenticated(LoginItems(items, data))
    ensures !Truthy(data.access) ==> (Authenticated(LoginItems(items, data)) <==> Authenticated(items))
  {
    if Truthy(data.access) {
      assert LoginItems(items, data)[AccessKey] == data.access.value;
    }
  }

  /** The service bound to the browser's store. */
  class Service {
    const storage: LocalStorage

    constructor (storage: LocalStorage)
      ensures this.storage == storage
    {
      this.storage := storage;
    }

    /** `login(email, password)`. `reply` is the outcome of the POST: the body of a
        2xx reply, or None when axios rejects, in which case the call rejects too. */
    method Login(reply: Option<LoginData>) returns (data: Option<LoginData>)
      modifies storage
      ensures data == reply
      ensures reply.Some? ==> storage.items == LoginItems(old(storage.items), reply.value)
      ensures reply.None? ==> storage.items == old(storage.items)
    {
      if reply.None? {
        return None;
      }
      var body := reply.value;
      if Truthy(body.access) {
        storage.SetItem(AccessKey, body.access.value);
        storage.SetItem(RefreshKey, JsString(body.refresh));
      }
      return reply;
    }

    /** `logout()`: exactly the two token keys are removed. */
    method Logout()
      modifies storage
      ensures storage.items == old(storage.items) - {AccessKey, RefreshKey}
      ensures !IsAuthenticated()
    {
      storage.RemoveItem(AccessKey);
      storage.RemoveItem(RefreshKey);
    }

    /** `isAuthenticated()`: `!!localStorage.getItem('access_token')`. */
    function IsAuthenticated(): (b: bool)
      reads storage
      ensures b <==> AccessKey in storage.items && storage.items[AccessKey] != ""
    {
      Truthy(storage.GetItem(AccessKey))
    }
  }
}
