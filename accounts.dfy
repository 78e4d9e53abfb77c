/** The backend's custom `User` and its manager `MyAccountManager`. Email
    normalisation and password hashing belong to the framework; they reach the
    model as the parameters `normalize` and `hash`. */
module Accounts {
  import opened Wrappers

  class User {
    var email: string
    var username: string
    var password: string
    var isActive: bool
    var isStaff: bool
    var isSuperuser: bool

    /** `self.model(email=..., username=...)`: active, neither staff nor superuser. */
    constructor (email: string, username: string)
      ensures this.email == email && this.username == username && password == ""
      ensures isActive && !isStaff && !isSuperuser
    {
      this.email := email;
      this.username := username;
      password := "";
      isActive := true;
      isStaff := false;
      isSuperuser := false;
    }

    /** `__str__`: `"<username>, <email>"`. */
    function Str(): (s: string)
      reads this
      ensures |s| == |username| + 2 + |email|
      ensures s[..|username|] == username && s[|username|..|username| + 2] == ", " && s[|username| + 2..] == email
    {
      username + ", " + email
    }

    /** `has_perms`: the superuser flag, whatever permissions are asked about. */
    function HasPerms(perms: seq<string>): (b: bool)
      reads this
      ensures b <==> isSuperuser
    {
      isSuperuser
    }

    /** `has_module_perms`: every user has every app's permissions. */
    function HasModulePerms(appLabel: string): (b: bool)
      ensures b
    {
      true
    }
  }

  /** The permission answer does not depend on the list asked about. */
  lemma PermsIgnoreList(u: User, a: seq<string>, b: seq<string>)
    ensures u.HasPerms(a) == u.HasPerms(b)
  {
  }

  /** Why `create_user` refuses, if it does: an empty email first, then an empty username. */
  function Refusal(email: string, username: string): (r: Option<string>)
    ensures r.None? <==> email != "" && username != ""
    ensures email == "" ==> r == Some("Users must have an email address")
    ensures email != "" && username == "" ==> r == Some("Users must have a username")
  {
    if email == "" then Some("Users must have an email address")
    else if username == "" then Some("Users must have a username")
    else None
  }

  /** `MyAccountManager` over the saved users. */
  class AccountManager {
    var saved: set<User>

    constructor ()
      ensures saved == {}
    {
      saved := {};
    }

    /** `create_user`: refuse, or build, set the password and save a user. */
    method CreateUser(email: string, username: string, password: Option<string>,
                      normalize: string -> string, hash: Option<string> -> string)
      returns (r: Result<User, string>)
      modifies this
      ensures Refusal(email, username).Some? ==> r == Err(Refusal(email, username).value) && saved == old(saved)
      ensures Refusal(email, username).None? ==>
                r.Ok? && fresh(r.value) && saved == old(saved) + {r.value} &&
                r.value.email == normalize(email) && r.value.username == username &&
                r.value.password == hash(password) &&
                r.value.isActive && !r.value.isStaff && !r.value.isSuperuser
    {
      var refusal := Refusal(email, username);
      if refusal.Some? {
        return Err(refusal.value);
      }
      var user := new User(normalize(email), username);
      user.password := hash(password);
      saved := saved + {user};
      r := Ok(user);
    }

    /** `create_superuser`: `create_user` on the normalised email, then all three
        flags set and the user saved again. */
    method CreateSuperuser(email: string, username: string, password: string,
                           normalize: string -> string, hash: Option<string> -> string)
      returns (r: Result<User, string>)
      modifies this
      ensures var e := normalize(email);
        (Refusal(e, username).Some? ==> r == Err(Refusal(e, username).value) && saved == old(saved)) &&
        (Refusal(e, username).None? ==>
           r.Ok? && fresh(r.value) && saved == old(saved) + {r.value} &&
           r.value.email == normalize(e) && r.value.username == username &&
           r.value.password == hash(Some(password)) &&
           r.value.isActive && r.value.isStaff && r.value.isSuperuser)
    {
      r := CreateUser(normalize(email), username, Some(password), normalize, hash);
      if r.Ok? {
        var user := r.value;
        user.isStaff := true;
        user.isSuperuser := true;
        user.isActive := true;
        saved := saved + {user};
      }
    }
  }
}
