/** The admin user list of the main front end: the search filter, delete, the
    active-status toggle, the protections of superusers, and the create form. */
module AdminDashboard {
  import opened Wrappers
  import Seqs
  import Text

  datatype AdminUser = AdminUser(id: int, username: string, email: string, firstName: string,
                                 lastName: string, isActive: bool, isSuperuser: bool)

  datatype NewUserForm = NewUserForm(username: string, email: string, password: string,
                                     firstName: string, lastName: string)

  const EmptyNewUser := NewUserForm("", "", "", "", "")

  /** The search: username, email, or `first_name + ' ' + last_name`, all lower-cased. */
  predicate Matches(u: AdminUser, term: string) {
    var t := Text.Lower(term);
    Text.Contains(Text.Lower(u.username), t) ||
    Text.Contains(Text.Lower(u.email), t) ||
    Text.Contains(Text.Lower(u.firstName + " " + u.lastName), t)
  }

  function Filtered(users: seq<AdminUser>, term: string): (r: seq<AdminUser>)
    ensures Seqs.IsSubseq(r, users)
    ensures forall i :: 0 <= i < |r| ==> Matches(r[i], term)
  {
    Seqs.Filter(users, (u: AdminUser) => Matches(u, term))
  }

  lemma FilteredMembership(users: seq<AdminUser>, term: string, u: AdminUser)
    ensures u in Filtered(users, term) <==> u in users && Matches(u, term)
  {
    Seqs.FilterMembership(users, (u: AdminUser) => Matches(u, term), u);
  }

  /** `users.filter(user => user.id !== userId)`. */
  function WithoutId(users: seq<AdminUser>, userId: int): (r: seq<AdminUser>)
    ensures Seqs.IsSubseq(r, users)
    ensures forall i :: 0 <= i < |r| ==> r[i].id != userId
  {
    Seqs.Filter(users, (u: AdminUser) => u.id != userId)
  }

  lemma WithoutIdKeepsOthers(users: seq<AdminUser>, userId: int, u: AdminUser)
    ensures u in WithoutId(users, userId) <==> u in users && u.id != userId
  {
    Seqs.FilterMembership(users, (u: AdminUser) => u.id != userId, u);
  }

  /** `users.map(u => u.id === id ? updated : u)`. */
  function ReplaceById(users: seq<AdminUser>, id: int, updated: AdminUser): (r: seq<AdminUser>)
    ensures |r| == |users|
    ensures forall i :: 0 <= i < |r| ==> r[i] == if users[i].id == id then updated else users[i]
    decreases |users|
  {
    if |users| == 0 then []
    else [if users[0].id == id then updated else users[0]] + ReplaceById(users[1..], id, updated)
  }

  /** The avatar letter: the first character of a non-empty first name, otherwise
      the upper-cased first character of the username; with both empty,
      `username[0]` is undefined and rendering throws. */
  function AvatarInitial(u: AdminUser): (r: Option<char>)
    ensures u.firstName != "" ==> r == Some(u.firstName[0])
    ensures u.firstName == "" && u.username != "" ==> r == Some(Text.UpperChar(u.username[0]))
    ensures r.None? <==> u.firstName == "" && u.username == ""
  {
    if u.firstName != "" then Some(u.firstName[0])
    else if u.username != "" then Some(Text.UpperChar(u.username[0]))
    else None
  }

  /** A delete button is rendered only for users who are not superusers. */
  predicate DeleteOffered(u: AdminUser) {
    !u.isSuperuser
  }

  /** The page's state. */
  class Page {
    var users: seq<AdminUser>
    var searchTerm: string
    var deleteConfirm: Option<int>
    var showAddModal: bool
    var newUser: NewUserForm

    constructor (users: seq<AdminUser>)
      ensures this.users == users && searchTerm == "" && deleteConfirm == None
      ensures !showAddModal && newUser == EmptyNewUser
    {
      this.users := users;
      searchTerm := "";
      deleteConfirm := None;
      showAddModal := false;
      newUser := EmptyNewUser;
    }

    /** `handleDelete(userId)`; `ok` is whether the server accepted the delete. */
    method HandleDelete(userId: int, ok: bool)
      modifies this
      ensures ok ==> users == WithoutId(old(users), userId) && deleteConfirm == None
      ensures !ok ==> users == old(users) && deleteConfirm == old(deleteConfirm)
      ensures searchTerm == old(searchTerm) && showAddModal == old(showAddModal) && newUser == old(newUser)
    {
      if ok {
        users := WithoutId(users, userId);
        deleteConfirm := None;
      }
    }

    /** The status button: for a superuser it is disabled and does nothing; for
        anyone else it requests `is_active = !is_active` and, when the server
        answers with the updated user, puts that user in place of the old one. */
    method ClickStatus(u: AdminUser, reply: Option<AdminUser>) returns (requested: Option<bool>)
      modifies this
      ensures u.isSuperuser ==> requested == None && users == old(users)
      ensures !u.isSuperuser ==> requested == Some(!u.isActive)
      ensures !u.isSuperuser && reply.Some? ==> users == ReplaceById(old(users), u.id, reply.value)
      ensures reply.None? ==> users == old(users)
      ensures searchTerm == old(searchTerm) && deleteConfirm == old(deleteConfirm)
      ensures showAddModal == old(showAddModal) && newUser == old(newUser)
    {
      if u.isSuperuser {
        return None;
      }
      requested := Some(!u.isActive);
      if reply.Some? {
        users := ReplaceById(users, u.id, reply.value);
      }
    }

    /** `handleCreateUser`; `ok` is whether the server created the user, and
        `refetched` is what the list refresh that follows receives (`None` when
        that request fails, which leaves the list as it was). */
    method HandleCreate(ok: bool, refetched: Option<seq<AdminUser>>)
      modifies this
      ensures ok ==> !showAddModal && newUser == EmptyNewUser
      ensures ok && refetched.Some? ==> users == refetched.value
      ensures !ok ==> showAddModal == old(showAddModal) && newUser == old(newUser)
      ensures !ok || refetched.None? ==> users == old(users)
      ensures searchTerm == old(searchTerm) && deleteConfirm == old(deleteConfirm)
    {
      if ok {
        showAddModal := false;
        newUser := EmptyNewUser;
        if refetched.Some? {
          users := refetched.value;
        }
      }
    }

    function Shown(): seq<AdminUser>
      reads this
    {
      Filtered(users, searchTerm)
    }
  }
}
