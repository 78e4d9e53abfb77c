/** The login views of the two expense-tracker backends, which differ only in the
    request key the email is read from, and the expense deletion view. The
    password check (`authenticate`) and token minting are the parameters
    `authenticate` and `issue`. */
module LoginViews {
  import opened Wrappers
  import Seqs

  /** A row of `auth_user`. */
  datatype Account = Account(id: int, username: string, email: string, firstName: string, lastName: string)

  /** The `user` object of a successful login. */
  datatype Summary = Summary(id: int, username: string, email: string, firstName: string, lastName: string)

  datatype Body =
    | ErrorBody(error: string)
    | LoginBody(access: string, refresh: string, user: Summary, message: string)

  datatype Response =
    | Json(status: int, body: Body)
    | Uncaught(exception: string)   // an exception the view does not catch: a server error

  /** `User.objects.get(email=email)`. */
  datatype Lookup = Found(account: Account) | DoesNotExist | MultipleObjectsReturned

  function WithEmail(users: seq<Account>, email: string): (r: seq<Account>)
    ensures forall i :: 0 <= i < |r| ==> r[i].email == email
  {
    Seqs.Filter(users, (a: Account) => a.email == email)
  }

  function Get(users: seq<Account>, email: string): (r: Lookup)
    ensures r.Found? <==> |WithEmail(users, email)| == 1
    ensures r.DoesNotExist? <==> WithEmail(users, email) == []
    ensures r.Found? ==> r.account.email == email && r.account in users
  {
    var m := WithEmail(users, email);
    if |m| == 0 then DoesNotExist
    else if |m| == 1 then
      Seqs.FilterMembership(users, (a: Account) => a.email == email, m[0]);
      Found(m[0])
    else MultipleObjectsReturned
  }

  /** `request.data.get(key)` read as Python truthiness: missing or empty is false. */
  function Supplied(data: map<string, string>, key: string): Option<string> {
    if key in data && data[key] != "" then Some(data[key]) else None
  }

  const Required := Json(400, ErrorBody("Email and password are required"))
  const Invalid := Json(401, ErrorBody("Invalid email or password"))

  function Success(u: Account, issue: Account -> (string, string)): Response {
    Json(200, LoginBody(issue(u).0, issue(u).1, Summary(u.id, u.username, u.email, u.firstName, u.lastName),
                        "Login successful"))
  }

  /** The shared decision once the email key has been chosen. */
  function Decide(data: map<string, string>, emailKey: string, users: seq<Account>,
                  authenticate: (string, string) -> Option<Account>,
                  issue: Account -> (string, string)): Response
  {
    var email := Supplied(data, emailKey);
    var password := Supplied(data, "password");
    if email.None? || password.None? then Required
    else
      match Get(users, email.value)
      case DoesNotExist => Invalid
      case MultipleObjectsReturned => Uncaught("MultipleObjectsReturned")
      case Found(u) =>
        match authenticate(u.username, password.value)
        case None => Invalid
        case Some(a) => Success(a, issue)
  }

  /** The account `authenticate` returns for the supplied email and password, if
      the email names exactly one account and the password is right for it. */
  function Authenticated(data: map<string, string>, users: seq<Account>,
                         authenticate: (string, string) -> Option<Account>): Option<Account> {
    var email := Supplied(data, "email");
    var password := Supplied(data, "password");
    if email.None? || password.None? || !Get(users, email.value).Found? then None
    else authenticate(Get(users, email.value).account.username, password.value)
  }

  /** `UserLoginView.post` reading the email from `'email'`. */
  function PostByEmail(data: map<string, string>, users: seq<Account>,
                       authenticate: (string, string) -> Option<Account>,
                       issue: Account -> (string, string)): (r: Response)
    ensures Supplied(data, "email").None? || Supplied(data, "password").None? ==> r == Required
    // 200 exactly when both are supplied, the email names one account, and the
    // password authenticates it.
    ensures r.Json? && r.status == 200 <==> Authenticated(data, users, authenticate).Some?
    // The reply carries the authenticated account's tokens and its details.
    ensures Authenticated(data, users, authenticate).Some? ==>
              var a := Authenticated(data, users, authenticate).value;
              r.Json? && r.body.LoginBody? && r.body.message == "Login successful" &&
              r.body.access == issue(a).0 && r.body.refresh == issue(a).1 &&
              r.body.user == Summary(a.id, a.username, a.email, a.firstName, a.lastName)
    ensures r.Json? ==> r.status in {200, 400, 401}
  {
    Decide(data, "email", users, authenticate, issue)
  }

  /** `UserLoginView.post` reading the email from `'username'`. */
  function PostByUsernameKey(data: map<string, string>, users: seq<Account>,
                             authenticate: (string, string) -> Option<Account>,
                             issue: Account -> (string, string)): (r: Response)
    ensures Supplied(data, "username").None? || Supplied(data, "password").None? ==> r == Required
    ensures r.Json? ==> r.status in {200, 400, 401}
  {
    Decide(data, "username", users, authenticate, issue)
  }

  /** An unknown email and a wrong password give the identical reply. */
  lemma FailuresIndistinguishable(data: map<string, string>, users: seq<Account>,
                                  authenticate: (string, string) -> Option<Account>,
                                  issue: Account -> (string, string))
    requires Supplied(data, "email").Some? && Supplied(data, "password").Some?
    ensures var g := Get(users, Supplied(data, "email").value);
            (g.DoesNotExist? || (g.Found? && authenticate(g.account.username, Supplied(data, "password").value).None?))
            <==> PostByEmail(data, users, authenticate, issue) == Invalid
  {
  }

  /** Two accounts sharing the email make the lookup raise. */
  lemma SharedEmailRaises(data: map<string, string>, users: seq<Account>,
                          authenticate: (string, string) -> Option<Account>,
                          issue: Account -> (string, string))
    requires Supplied(data, "email").Some? && Supplied(data, "password").Some?
    requires |WithEmail(users, Supplied(data, "email").value)| >= 2
    ensures PostByEmail(data, users, authenticate, issue).Uncaught?
  {
  }

  /** The request with the email moved from `'email'` to `'username'`. */
  function MoveEmail(data: map<string, string>): map<string, string> {
    var rest := data - {"username", "email"};
    if "email" in data then rest["username" := data["email"]] else rest
  }

  /** The two views agree once the email travels under the other key. */
  lemma ViewsAgree(data: map<string, string>, users: seq<Account>,
                   authenticate: (string, string) -> Option<Account>,
                   issue: Account -> (string, string))
    ensures PostByUsernameKey(MoveEmail(data), users, authenticate, issue) == PostByEmail(data, users, authenticate, issue)
  {
    assert Supplied(MoveEmail(data), "username") == Supplied(data, "email");
    assert Supplied(MoveEmail(data), "password") == Supplied(data, "password");
  }

  // ---- ExpenseDelete ----

  /** An expense row, as far as deletion reads it. */
  datatype Expense = Expense(id: int, reportedBy: int)

  class ExpenseTable {
    var rows: seq<Expense>

    constructor (rows: seq<Expense>)
      ensures this.rows == rows
    {
      this.rows := rows;
    }

    /** `DestroyAPIView` over `Expense.objects.filter(reported_by=user)`: the row
        with that id is deleted (204) only if the requester reported it; otherwise
        404 and nothing changes. */
    method Destroy(requester: int, id: int) returns (status: int)
      modifies this
      ensures (exists i :: 0 <= i < |old(rows)| && old(rows)[i].id == id && old(rows)[i].reportedBy == requester)
              <==> status == 204
      ensures status == 204 || status == 404
      ensures status == 404 ==> rows == old(rows)
      ensures status == 204 ==> rows == Seqs.Filter(old(rows), (e: Expense) => e.id != id)
    {
      var i := 0;
      while i < |rows|
        invariant 0 <= i <= |rows|
        invariant forall j :: 0 <= j < i ==> !(rows[j].id == id && rows[j].reportedBy == requester)
      {
        if rows[i].id == id && rows[i].reportedBy == requester {
          rows := Seqs.Filter(rows, (e: Expense) => e.id != id);
          return 204;
        }
        i := i + 1;
      }
      status := 404;
    }
  }
}
