/** The backend's default categories: the sixteen seeded for every new user, and
    the `get_or_create` loop that seeds them into the category table. */
module DefaultCategories {
  import opened Wrappers
  import Seqs
  import TxModel

  type CategoryRow = TxModel.CategoryRow

  /** One entry of `default_categories`. */
  datatype Default = Default(name: string, icon: string, kind: string)

  /** The list in its order: the four income entries, then the twelve expense entries. */
  const Defaults: seq<Default> := IncomeDefaults + ExpenseDefaults

  const IncomeDefaults: seq<Default> := [
    Default("Salary", "\U{1F4B0}", "income"),
    Default("Freelance", "\U{1F4BC}", "income"),
    Default("Investment", "\U{1F4C8}", "income"),
    Default("Other Income", "\U{1F4B5}", "income")
  ]

  const ExpenseDefaults: seq<Default> := [
    Default("Food & Dining", "\U{1F354}", "expense"),
    Default("Transportation", "\U{1F697}", "expense"),
    Default("Shopping", "\U{1F6CD}\U{FE0F}", "expense"),
    Default("Utilities", "\U{1F4A1}", "expense"),
    Default("Entertainment", "\U{1F3AC}", "expense"),
    Default("Healthcare", "\U{2695}\U{FE0F}", "expense"),
    Default("Education", "\U{1F393}", "expense"),
    Default("Housing", "\U{1F3E0}", "expense"),
    Default("Personal Care", "\U{1F485}", "expense"),
    Default("Travel", "\U{2708}\U{FE0F}", "expense"),
    Default("Fitness", "\U{1F3CB}\U{FE0F}", "expense"),
    Default("Other Expense", "\U{1F4C1}", "expense")
  ]

  function IsIncome(d: Default): bool { d.kind == "income" }

  function IsExpense(d: Default): bool { d.kind == "expense" }

  /** Sixteen defaults, four income and twelve expense. */
  lemma DefaultsByType()
    ensures |Defaults| == 16
    ensures Seqs.Count(Defaults, IsIncome) == 4 && Seqs.Count(Defaults, IsExpense) == 12
  {
    IncomeCounts();
    ExpenseCounts();
    Seqs.CountAppend(IncomeDefaults, ExpenseDefaults, IsIncome);
    Seqs.CountAppend(IncomeDefaults, ExpenseDefaults, IsExpense);
  }

  lemma IncomeCounts()
    ensures Seqs.Count(IncomeDefaults, IsIncome) == 4 && Seqs.Count(IncomeDefaults, IsExpense) == 0
  {
    var ds := IncomeDefaults;
    assert forall i :: 0 <= i < |ds| ==> ds[i].kind == "income";
    AllCount(ds, IsIncome);
    NoneCount(ds, IsExpense);
  }

  lemma ExpenseCounts()
    ensures Seqs.Count(ExpenseDefaults, IsExpense) == 12 && Seqs.Count(ExpenseDefaults, IsIncome) == 0
  {
    var ds := ExpenseDefaults;
    assert forall i :: 0 <= i < |ds| ==> ds[i].kind == "expense";
    AllCount(ds, IsExpense);
    NoneCount(ds, IsIncome);
  }

  lemma {:induction false} AllCount(s: seq<Default>, p: Default -> bool)
    requires forall i :: 0 <= i < |s| ==> p(s[i])
    ensures Seqs.Count(s, p) == |s|
    decreases |s|
  {
    if |s| > 0 { AllCount(s[1..], p); }
  }

  lemma {:induction false} NoneCount(s: seq<Default>, p: Default -> bool)
    requires forall i :: 0 <= i < |s| ==> !p(s[i])
    ensures Seqs.Count(s, p) == 0
    decreases |s|
  {
    if |s| > 0 { NoneCount(s[1..], p); }
  }

  /** No two defaults share a name. */
  lemma DefaultNamesDistinct()
    ensures forall i, j :: 0 <= i < j < |Defaults| ==> Defaults[i].name != Defaults[j].name
  {
    var ds := Defaults;
    forall i, j | 0 <= i < j < |ds| ensures ds[i].name != ds[j].name {
      assert ds[i].name[0] != ds[j].name[0] || |ds[i].name| != |ds[j].name| ||
             ds[i].name[1] != ds[j].name[1] || ds[i].name[6] != ds[j].name[6];
    }
  }

  // ---- the category table ----

  /** The user already has a category with this name (the `get_or_create` lookup). */
  predicate HasName(rows: seq<CategoryRow>, user: int, name: string) {
    exists i :: 0 <= i < |rows| && rows[i].user == user && rows[i].name == name
  }

  /** `unique_together = [('user', 'name')]`, and ids below the next one to assign. */
  predicate Consistent(rows: seq<CategoryRow>, nextId: int) {
    (forall i, j :: 0 <= i < j < |rows| ==> rows[i].user != rows[j].user || rows[i].name != rows[j].name) &&
    (forall i, j :: 0 <= i < j < |rows| ==> rows[i].id != rows[j].id) &&
    (forall i :: 0 <= i < |rows| ==> rows[i].id < nextId)
  }

  /** The table as a value: its rows and the next id the database will assign. */
  datatype Table = Table(rows: seq<CategoryRow>, nextId: int)

  /** `get_or_create(user=user, name=d.name, defaults={...})` on a table value. */
  function Ensure(t: Table, user: int, d: Default): (r: Table)
    ensures t.rows <= r.rows
    ensures HasName(r.rows, user, d.name)
    ensures forall i :: |t.rows| <= i < |r.rows| ==> r.rows[i].user == user
  {
    if HasName(t.rows, user, d.name) then t
    else
      var row := TxModel.CategoryRow(t.nextId, user, d.name, d.icon, d.kind);
      assert (t.rows + [row])[|t.rows|] == row;
      Table(t.rows + [row], t.nextId + 1)
  }

  /** `create_default_categories`: `get_or_create` for each entry in turn. */
  function Seed(t: Table, user: int, ds: seq<Default>): (r: Table)
    ensures t.rows <= r.rows
    ensures forall i :: |t.rows| <= i < |r.rows| ==> r.rows[i].user == user
    decreases |ds|
  {
    if |ds| == 0 then t
    else
      var next := Ensure(t, user, ds[0]);
      var r := Seed(next, user, ds[1..]);
      r
  }

  lemma HasNameKept(rows: seq<CategoryRow>, more: seq<CategoryRow>, user: int, name: string)
    requires rows <= more
    requires HasName(rows, user, name)
    ensures HasName(more, user, name)
  {
    var i :| 0 <= i < |rows| && rows[i].user == user && rows[i].name == name;
    assert more[i] == rows[i];
  }

  /** After seeding, the user has a category for every default name. */
  lemma {:induction false} SeedCovers(t: Table, user: int, ds: seq<Default>, d: Default)
    requires d in ds
    ensures HasName(Seed(t, user, ds).rows, user, d.name)
    decreases |ds|
  {
    var next := Ensure(t, user, ds[0]);
    if d == ds[0] {
      HasNameKept(next.rows, Seed(next, user, ds[1..]).rows, user, d.name);
    } else {
      SeedCovers(next, user, ds[1..], d);
    }
  }

  /** Seeding names that are all present changes nothing. */
  lemma {:induction false} SeedPresent(t: Table, user: int, ds: seq<Default>)
    requires forall i :: 0 <= i < |ds| ==> HasName(t.rows, user, ds[i].name)
    ensures Seed(t, user, ds) == t
    decreases |ds|
  {
    if |ds| > 0 { SeedPresent(t, user, ds[1..]); }
  }

  /** Seeding twice yields the same table as seeding once. */
  lemma SeedIdempotent(t: Table, user: int, ds: seq<Default>)
    ensures Seed(Seed(t, user, ds), user, ds) == Seed(t, user, ds)
  {
    var once := Seed(t, user, ds);
    forall i | 0 <= i < |ds| ensures HasName(once.rows, user, ds[i].name) {
      SeedCovers(t, user, ds, ds[i]);
    }
    SeedPresent(once, user, ds);
  }

  function OwnedBy(rows: seq<CategoryRow>, owner: int): seq<CategoryRow> {
    Seqs.Filter(rows, (c: CategoryRow) => c.user == owner)
  }

  /** Another user's categories are exactly as before. */
  lemma SeedLeavesOthers(t: Table, user: int, ds: seq<Default>, other: int)
    requires other != user
    ensures OwnedBy(Seed(t, user, ds).rows, other) == OwnedBy(t.rows, other)
  {
    var rows := Seed(t, user, ds).rows;
    var n := |t.rows|;
    var added := rows[n..];
    assert rows[..n] == t.rows;
    assert rows == t.rows + added;
    forall i | 0 <= i < |added| ensures added[i].user != other {
      assert added[i] == rows[n + i];
    }
    NoneOwned(added, other);
    Seqs.FilterAppend(t.rows, added, (c: CategoryRow) => c.user == other);
    assert OwnedBy(rows, other) == OwnedBy(t.rows, other) + OwnedBy(added, other);
  }

  lemma {:induction false} NoneOwned(rows: seq<CategoryRow>, other: int)
    requires forall i :: 0 <= i < |rows| ==> rows[i].user != other
    ensures OwnedBy(rows, other) == []
    decreases |rows|
  {
    if |rows| > 0 { NoneOwned(rows[1..], other); }
  }

  /** A category the user already had keeps its icon and type: rows are only ever added. */
  lemma SeedKeepsExisting(t: Table, user: int, ds: seq<Default>, i: nat)
    requires i < |t.rows|
    ensures Seed(t, user, ds).rows[i] == t.rows[i]
  {
  }

  lemma EnsureConsistent(t: Table, user: int, d: Default)
    requires Consistent(t.rows, t.nextId)
    ensures Consistent(Ensure(t, user, d).rows, Ensure(t, user, d).nextId)
  {
  }

  /** Seeding keeps names unique per user and ids unique. */
  lemma {:induction false} SeedConsistent(t: Table, user: int, ds: seq<Default>)
    requires Consistent(t.rows, t.nextId)
    ensures Consistent(Seed(t, user, ds).rows, Seed(t, user, ds).nextId)
    decreases |ds|
  {
    if |ds| > 0 {
      EnsureConsistent(t, user, ds[0]);
      SeedConsistent(Ensure(t, user, ds[0]), user, ds[1..]);
    }
  }

  /** The category table of the database. */
  class CategoryTable {
    var rows: seq<CategoryRow>
    var nextId: int

    constructor (rows: seq<CategoryRow>, nextId: int)
      ensures this.rows == rows && this.nextId == nextId
    {
      this.rows := rows;
      this.nextId := nextId;
    }

    /** `Category.objects.get_or_create(user=user, name=name, defaults=...)`: the
        existing row when there is one, else a new row with the defaults. */
    method GetOrCreate(user: int, d: Default) returns (c: CategoryRow, created: bool)
      modifies this
      ensures created <==> !HasName(old(rows), user, d.name)
      ensures c in rows && c.user == user && c.name == d.name
      ensures created ==> c.icon == d.icon && c.kind == d.kind
      ensures !created ==> c in old(rows)
      ensures Table(rows, nextId) == Ensure(Table(old(rows), old(nextId)), user, d)
    {
      var i := 0;
      while i < |rows|
        invariant 0 <= i <= |rows|
        invariant forall j :: 0 <= j < i ==> !(rows[j].user == user && rows[j].name == d.name)
      {
        if rows[i].user == user && rows[i].name == d.name {
          return rows[i], false;
        }
        i := i + 1;
      }
      c := TxModel.CategoryRow(nextId, user, d.name, d.icon, d.kind);
      rows := rows + [c];
      nextId := nextId + 1;
      created := true;
    }

    /** `create_default_categories(user)`. */
    method CreateDefaultCategories(user: int)
      modifies this
      ensures Table(rows, nextId) == Seed(Table(old(rows), old(nextId)), user, Defaults)
    {
      for k := 0 to |Defaults|
        invariant Seed(Table(rows, nextId), user, Defaults[k..]) == Seed(Table(old(rows), old(nextId)), user, Defaults)
      {
        assert Defaults[k..][1..] == Defaults[k + 1..];
        var _, _ := GetOrCreate(user, Defaults[k]);
      }
    }

    /** `create_user_default_categories`: the `post_save` receiver seeds only for a
        user that was just created. */
    method UserSaved(user: int, created: bool)
      modifies this
      ensures created ==> Table(rows, nextId) == Seed(Table(old(rows), old(nextId)), user, Defaults)
      ensures !created ==> rows == old(rows) && nextId == old(nextId)
    {
      if created {
        CreateDefaultCategories(user);
      }
    }
  }
}
