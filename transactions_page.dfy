/** The Transactions page of the main front end: add, edit and delete on the
    transaction list, the search/category/type filter, and the date or amount
    sort of what is shown. */
module TransactionsPage {
  import opened Wrappers
  import opened Ledger
  import Seqs
  import Text

  /** The dialog's form record; every field is the text of its input. */
  datatype Form = Form(amount: string, date: string, merchant: string,
                       category: string, kind: string, notes: string)

  /** What `resetForm` restores. */
  const EmptyForm := Form("", "", "", "", "expense", "")

  /** The id given to a new transaction: the list's length plus one, as text. */
  function NewId(length: nat): (id: string)
    ensures id != "" && forall i :: 0 <= i < |id| ==> '0' <= id[i] <= '9'
    ensures Text.DigitsValue(id) == length + 1
  {
    Text.NatTextValue(length + 1);
    Text.NatText(length + 1)
  }

  /** The record the form produces; `parseAmount` stands for `parseFloat`. */
  function FromForm(id: string, form: Form, parseAmount: string -> int): (t: Txn)
    ensures t.id == id && t.date == form.date && t.merchant == form.merchant
    ensures t.category == form.category && t.kind == form.kind && t.notes == Some(form.notes)
    ensures t.amount == parseAmount(form.amount)
  {
    Txn(id, parseAmount(form.amount), form.date, form.merchant, form.category, form.kind, Some(form.notes))
  }

  /** `transactions.map(t => t.id === id ? {...editing, <form fields>} : t)`. */
  function EditAll(txns: seq<Txn>, id: string, form: Form, parseAmount: string -> int): (r: seq<Txn>)
    ensures |r| == |txns|
    ensures forall i :: 0 <= i < |r| && txns[i].id == id ==> r[i] == FromForm(id, form, parseAmount)
    ensures forall i :: 0 <= i < |r| && txns[i].id != id ==> r[i] == txns[i]
    decreases |txns|
  {
    if |txns| == 0 then []
    else [if txns[0].id == id then FromForm(id, form, parseAmount) else txns[0]]
         + EditAll(txns[1..], id, form, parseAmount)
  }

  /** `transactions.filter(t => t.id !== id)`. */
  function DeleteAll(txns: seq<Txn>, id: string): (r: seq<Txn>)
    ensures forall i :: 0 <= i < |r| ==> r[i].id != id
    ensures Seqs.IsSubseq(r, txns)
  {
    Seqs.Filter(txns, (t: Txn) => t.id != id)
  }

  /** Delete keeps exactly the entries with another id. */
  lemma DeleteKeepsOthers(txns: seq<Txn>, id: string, t: Txn)
    ensures t in DeleteAll(txns, id) <==> t in txns && t.id != id
  {
    Seqs.FilterMembership(txns, (t: Txn) => t.id != id, t);
  }

  /** The page's filter: search on merchant or category (lower-cased), and the
      category and type selects, each of which may be `'all'`. */
  predicate Matches(t: Txn, search: string, category: string, kind: string) {
    (Text.Contains(Text.Lower(t.merchant), Text.Lower(search)) ||
     Text.Contains(Text.Lower(t.category), Text.Lower(search))) &&
    (category == "all" || t.category == category) &&
    (kind == "all" || t.kind == kind)
  }

  function Filtered(txns: seq<Txn>, search: string, category: string, kind: string): (r: seq<Txn>)
    ensures forall i :: 0 <= i < |r| ==> Matches(r[i], search, category, kind)
    ensures Seqs.IsSubseq(r, txns)
  {
    Seqs.Filter(txns, (t: Txn) => Matches(t, search, category, kind))
  }

  /** An entry is shown iff it is in the list and matches. */
  lemma FilteredMembership(txns: seq<Txn>, search: string, category: string, kind: string, t: Txn)
    ensures t in Filtered(txns, search, category, kind) <==> t in txns && Matches(t, search, category, kind)
  {
    Seqs.FilterMembership(txns, (t: Txn) => Matches(t, search, category, kind), t);
  }

  /** The initial filter state shows the whole list. */
  lemma NoFilterShowsAll(txns: seq<Txn>)
    ensures Filtered(txns, "", "all", "all") == txns
  {
    forall i | 0 <= i < |txns|
      ensures Matches(txns[i], "", "all", "all")
    {
      Text.ContainsEmpty(Text.Lower(txns[i].merchant));
    }
  }

  /** The comparator's key: `multiplier * key`, with the date's day number when
      sorting by date and the amount otherwise; `dayOf` stands for `new Date(..).getTime()`. */
  function Rank(t: Txn, sortBy: string, sortOrder: string, dayOf: string -> int): int {
    var multiplier := if sortOrder == "asc" then 1 else -1;
    multiplier * (if sortBy == "date" then dayOf(t.date) else t.amount)
  }

  predicate SortedBy(s: seq<Txn>, rank: Txn -> int) {
    forall p, q :: 0 <= p < q < |s| ==> rank(s[p]) <= rank(s[q])
  }

  /** Ascending order by date is descending order flipped. */
  lemma AscIsReverseOfDesc(s: seq<Txn>, sortBy: string, dayOf: string -> int)
    ensures SortedBy(s, (t: Txn) => Rank(t, sortBy, "asc", dayOf)) <==>
            forall p, q :: 0 <= p < q < |s| ==> Rank(s[q], sortBy, "desc", dayOf) <= Rank(s[p], sortBy, "desc", dayOf)
  {
  }

  /** Exchanges two adjacent entries. */
  method SwapAdjacent(a: array<Txn>, j: int)
    requires 0 < j < a.Length
    modifies a
    ensures a[j - 1] == old(a[j]) && a[j] == old(a[j - 1])
    ensures forall m :: 0 <= m < a.Length && m != j - 1 && m != j ==> a[m] == old(a[m])
    ensures multiset(a[..]) == old(multiset(a[..]))
  {
    var t := a[j - 1];
    a[j - 1] := a[j];
    a[j] := t;
  }

  /** `array.sort(comparator)` in place, by insertion with adjacent swaps. */
  method SortInPlace(a: array<Txn>, rank: Txn -> int)
    modifies a
    ensures SortedBy(a[..], rank)
    ensures multiset(a[..]) == multiset(old(a[..]))
  {
    var i := 0;
    while i < a.Length
      invariant 0 <= i <= a.Length
      invariant forall p, q :: 0 <= p < q < i ==> rank(a[p]) <= rank(a[q])
      invariant multiset(a[..]) == multiset(old(a[..]))
    {
      var j := i;
      while j > 0 && rank(a[j - 1]) > rank(a[j])
        invariant 0 <= j <= i
        invariant forall p, q :: 0 <= p < q <= i && p != j && q != j ==> rank(a[p]) <= rank(a[q])
        invariant forall q :: j < q <= i ==> rank(a[j]) < rank(a[q])
        invariant multiset(a[..]) == multiset(old(a[..]))
      {
        SwapAdjacent(a, j);
        j := j - 1;
      }
      i := i + 1;
    }
  }

  /** The component's state. */
  class Page {
    var transactions: seq<Txn>
    var form: Form
    var editing: Option<Txn>
    var search: string
    var filterCategory: string
    var filterType: string
    var sortBy: string
    var sortOrder: string
    var addDialogOpen: bool

    /** The search box and the filter and sort selects. */
    function Controls(): (string, string, string, string, string)
      reads this
    {
      (search, filterCategory, filterType, sortBy, sortOrder)
    }

    constructor (initial: seq<Txn>)
      ensures transactions == initial && form == EmptyForm && editing == None
      ensures search == "" && filterCategory == "all" && filterType == "all"
      ensures sortBy == "date" && sortOrder == "desc" && !addDialogOpen
    {
      transactions := initial;
      form := EmptyForm;
      editing := None;
      search := "";
      filterCategory := "all";
      filterType := "all";
      sortBy := "date";
      sortOrder := "desc";
      addDialogOpen := false;
    }

    method ResetForm()
      modifies this
      ensures form == EmptyForm
      ensures transactions == old(transactions) && editing == old(editing) && addDialogOpen == old(addDialogOpen)
      ensures Controls() == old(Controls())
    {
      form := EmptyForm;
    }

    /** `handleAddTransaction`: prepend the form's record, close the dialog, reset the form. */
    method AddTransaction(parseAmount: string -> int)
      modifies this
      ensures transactions == [FromForm(NewId(|old(transactions)|), old(form), parseAmount)] + old(transactions)
      ensures !addDialogOpen && form == EmptyForm && editing == old(editing)
      ensures Controls() == old(Controls())
    {
      var t := FromForm(NewId(|transactions|), form, parseAmount);
      transactions := [t] + transactions;
      addDialogOpen := false;
      ResetForm();
    }

    /** `handleEditTransaction`: nothing without a selection; otherwise overwrite
        every entry with the selected id, clear the selection and reset the form. */
    method EditTransaction(parseAmount: string -> int)
      modifies this
      ensures old(editing).None? ==> transactions == old(transactions) && form == old(form) && editing == None
      ensures old(editing).Some? ==>
        transactions == EditAll(old(transactions), old(editing).value.id, old(form), parseAmount) &&
        editing == None && form == EmptyForm
      ensures addDialogOpen == old(addDialogOpen) && Controls() == old(Controls())
    {
      if editing.None? { return; }
      transactions := EditAll(transactions, editing.value.id, form, parseAmount);
      editing := None;
      ResetForm();
    }

    method DeleteTransaction(id: string)
      modifies this
      ensures transactions == DeleteAll(old(transactions), id)
      ensures form == old(form) && editing == old(editing)
      ensures addDialogOpen == old(addDialogOpen) && Controls() == old(Controls())
    {
      transactions := DeleteAll(transactions, id);
    }

    /** `startEdit`: select the entry and copy it into the form (`notes || ''`);
        `amountText` stands for `amount.toString()`. */
    method StartEdit(t: Txn, amountText: int -> string)
      modifies this
      ensures editing == Some(t)
      ensures form == Form(amountText(t.amount), t.date, t.merchant, t.category, t.kind, t.notes.GetOr(""))
      ensures transactions == old(transactions)
      ensures addDialogOpen == old(addDialogOpen) && Controls() == old(Controls())
    {
      editing := Some(t);
      form := Form(amountText(t.amount), t.date, t.merchant, t.category, t.kind, t.notes.GetOr(""));
    }

    /** The sort button. */
    method ToggleSortOrder()
      modifies this
      ensures sortOrder == if old(sortOrder) == "asc" then "desc" else "asc"
      ensures transactions == old(transactions) && sortBy == old(sortBy)
      ensures form == old(form) && editing == old(editing) && addDialogOpen == old(addDialogOpen)
      ensures search == old(search) && filterCategory == old(filterCategory) && filterType == old(filterType)
    {
      sortOrder := if sortOrder == "asc" then "desc" else "asc";
    }

    /** The list the table shows: the filtered list, sorted in place. */
    method Shown(dayOf: string -> int) returns (shown: seq<Txn>)
      ensures multiset(shown) == multiset(Filtered(transactions, search, filterCategory, filterType))
      ensures forall p, q :: 0 <= p < q < |shown| ==>
                Rank(shown[p], sortBy, sortOrder, dayOf) <= Rank(shown[q], sortBy, sortOrder, dayOf)
    {
      var filtered := Filtered(transactions, search, filterCategory, filterType);
      var a := new Txn[|filtered|](i requires 0 <= i < |filtered| => filtered[i]);
      assert a[..] == filtered;
      var key, order := sortBy, sortOrder;
      SortInPlace(a, (t: Txn) => Rank(t, key, order, dayOf));
      shown := a[..];
    }
  }

  /** Ids are the length plus one, so deleting the first of two entries and adding
      one more gives two entries with the same id. */
  lemma DeleteThenAddRepeatsId(t1: Txn, t2: Txn, form: Form, parseAmount: string -> int)
    requires t1.id == "1" && t2.id == "2"
    ensures var after := DeleteAll([t2, t1], "1");
            var added := [FromForm(NewId(|after|), form, parseAmount)] + after;
            |added| == 2 && added[0].id == added[1].id
  {
    assert [t2, t1][1..] == [t1];
    assert DeleteAll([t1], "1") == [];
    assert DeleteAll([t2, t1], "1") == [t2];
    assert NewId(1) == Text.NatText(2);
  }
}
