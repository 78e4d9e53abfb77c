/** The budget editor of the legacy front end: a fixed set of categories, each
    with a budget amount and the amount spent, edited one at a time. */
module SetBudget {
  import opened Wrappers

  /** One category's figures, in cents. */
  datatype Entry = Entry(amount: int, spent: int)

  /** The categories in their display (and insertion) order. */
  const Order: seq<string> := ["food", "transport", "shopping", "bills", "entertainment", "health", "tech", "other"]

  /** The initial figures, in whole currency units times 100. */
  function InitialBudgets(): map<string, Entry> {
    map["food" := Entry(60000, 42500), "transport" := Entry(25000, 18000),
        "shopping" := Entry(40000, 32000), "bills" := Entry(90000, 85000),
        "entertainment" := Entry(20000, 14500), "health" := Entry(30000, 12000),
        "tech" := Entry(15000, 9500), "other" := Entry(20000, 7500)]
  }

  /** The sum of `f` over the entries of `keys`; Object.values in insertion order. */
  function SumOver(keys: seq<string>, budgets: map<string, Entry>, f: Entry -> int): int
    requires forall i :: 0 <= i < |keys| ==> keys[i] in budgets
    decreases |keys|
  {
    if |keys| == 0 then 0 else f(budgets[keys[0]]) + SumOver(keys[1..], budgets, f)
  }

  /** Changing one entry changes the sum by exactly that entry's difference. */
  lemma {:induction false} SumOverUpdate(keys: seq<string>, budgets: map<string, Entry>, f: Entry -> int,
                                         k: string, e: Entry)
    requires forall i :: 0 <= i < |keys| ==> keys[i] in budgets
    requires k in budgets
    requires forall i, j :: 0 <= i < j < |keys| ==> keys[i] != keys[j]
    ensures SumOver(keys, budgets[k := e], f) ==
            SumOver(keys, budgets, f) + (if k in keys then f(e) - f(budgets[k]) else 0)
    decreases |keys|
  {
    if |keys| > 0 {
      SumOverUpdate(keys[1..], budgets, f, k, e);
      if keys[0] == k {
        assert k !in keys[1..];
      } else {
        assert k in keys <==> k in keys[1..];
      }
    }
  }

  /** `(spent / amount) * 100`. */
  function Percentage(e: Entry): real
    requires e.amount > 0
  {
    (e.spent as real / e.amount as real) * 100.0
  }

  /** `percentage > 100`: over budget exactly when more was spent than budgeted. */
  function IsOverBudget(e: Entry): (b: bool)
    requires e.amount > 0
    ensures b <==> e.spent > e.amount
  {
    var p := Percentage(e);
    assert p * e.amount as real == e.spent as real * 100.0;
    p > 100.0
  }

  /** The bar width, `Math.min(percentage, 100)`. */
  function BarWidth(e: Entry): (w: real)
    requires e.amount > 0
    ensures w <= 100.0
    ensures w == 100.0 <==> e.spent >= e.amount
  {
    var p := Percentage(e);
    assert p * e.amount as real == e.spent as real * 100.0;
    if p < 100.0 then p else 100.0
  }

  /** The editor's state. */
  class Editor {
    var budgets: map<string, Entry>
    var editingCategory: Option<string>
    var tempAmount: string

    /** Every category of the display order is present, with a positive budget. */
    predicate Valid()
      reads this
    {
      (forall i :: 0 <= i < |Order| ==> Order[i] in budgets) &&
      (forall k :: k in budgets ==> budgets[k].amount > 0)
    }

    constructor ()
      ensures Valid()
      ensures budgets == InitialBudgets() && editingCategory == None && tempAmount == ""
    {
      budgets := InitialBudgets();
      editingCategory := None;
      tempAmount := "";
    }

    function TotalBudget(): int
      reads this
      requires Valid()
    {
      SumOver(Order, budgets, (e: Entry) => e.amount)
    }

    function TotalSpent(): int
      reads this
      requires Valid()
    {
      SumOver(Order, budgets, (e: Entry) => e.spent)
    }

    function BudgetRemaining(): (r: int)
      reads this
      requires Valid()
      ensures r == TotalBudget() - TotalSpent()
    {
      TotalBudget() - TotalSpent()
    }

    /** `handleEditClick`; `amountText` stands for `amount.toString()`. */
    method EditClick(category: string, amountText: int -> string)
      requires Valid() && category in budgets
      modifies this
      ensures Valid() && budgets == old(budgets)
      ensures editingCategory == Some(category) && tempAmount == amountText(budgets[category].amount)
    {
      editingCategory := Some(category);
      tempAmount := amountText(budgets[category].amount);
    }

    /** `handleSaveBudget`: only a non-empty text that parses to more than zero
        (`parse` stands for `parseFloat`, None for NaN) replaces that category's
        amount; spent and every other category stay as they were. */
    method SaveBudget(category: string, parse: string -> Option<int>)
      requires Valid() && category in budgets
      modifies this
      ensures Valid()
      ensures old(tempAmount) != "" && parse(old(tempAmount)).Some? && parse(old(tempAmount)).value > 0 ==>
        budgets == old(budgets)[category := Entry(parse(old(tempAmount)).value, old(budgets)[category].spent)] &&
        editingCategory == None && tempAmount == ""
      ensures !(old(tempAmount) != "" && parse(old(tempAmount)).Some? && parse(old(tempAmount)).value > 0) ==>
        budgets == old(budgets) && editingCategory == old(editingCategory) && tempAmount == old(tempAmount)
      ensures TotalSpent() == old(TotalSpent())
    {
      var parsed := parse(tempAmount);
      if tempAmount != "" && parsed.Some? && parsed.value > 0 {
        var e := budgets[category];
        SaveKeepsSpent(budgets, category, parsed.value);
        budgets := budgets[category := e.(amount := parsed.value)];
        editingCategory := None;
        tempAmount := "";
      }
    }

    method Cancel()
      modifies this
      ensures editingCategory == None && tempAmount == "" && budgets == old(budgets)
    {
      editingCategory := None;
      tempAmount := "";
    }
  }

  /** A save leaves the total spent as it was. */
  lemma SaveKeepsSpent(budgets: map<string, Entry>, category: string, amount: int)
    requires forall i :: 0 <= i < |Order| ==> Order[i] in budgets
    requires category in budgets
    ensures var updated := budgets[category := budgets[category].(amount := amount)];
            SumOver(Order, updated, (e: Entry) => e.spent) == SumOver(Order, budgets, (e: Entry) => e.spent)
  {
    SumOverUpdate(Order, budgets, (e: Entry) => e.spent, category, budgets[category].(amount := amount));
  }

  /** A save moves the total budget by the change of that one category's amount. */
  lemma SaveMovesTotal(budgets: map<string, Entry>, category: string, amount: int)
    requires forall i :: 0 <= i < |Order| ==> Order[i] in budgets
    requires category in Order
    ensures var updated := budgets[category := budgets[category].(amount := amount)];
            SumOver(Order, updated, (e: Entry) => e.amount) ==
            SumOver(Order, budgets, (e: Entry) => e.amount) + amount - budgets[category].amount
  {
    SumOverUpdate(Order, budgets, (e: Entry) => e.amount, category, budgets[category].(amount := amount));
  }
}
