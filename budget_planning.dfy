/** The Budget Planning page of the main front end: the status of each budget,
    the totals over all budgets, and the categories offered for a new budget. */
module BudgetPlanning {
  import opened Wrappers
  import opened Ledger
  import Seqs

  /** A JSON value as the page reads it: absent, a number (in cents), or a
      string (DRF sends decimal fields as strings such as "0.00"). */
  datatype JsValue = Missing | Num(cents: int) | Str(text: string)

  /** JavaScript truthiness: `0` and `""` are falsy, and so is an absent value. */
  predicate Truthy(v: JsValue) {
    match v
    case Missing => false
    case Num(c) => c != 0
    case Str(t) => t != ""
  }

  /** `parseFloat(v)` of a present value; `parse` stands for the text-to-cents parse. */
  function ParseCents(v: JsValue, parse: string -> int): int {
    match v
    case Missing => 0
    case Num(c) => c
    case Str(t) => parse(t)
  }

  /** `v || fallback`. */
  function Or(v: JsValue, fallback: JsValue): (r: JsValue)
    ensures Truthy(v) ==> r == v
    ensures !Truthy(v) ==> r == fallback
  {
    if Truthy(v) then v else fallback
  }

  /** A budget as the list endpoint returns it. */
  datatype Budget = Budget(id: int, amount: JsValue, spentAmount: JsValue,
                           remainingAmount: JsValue, percentageUsed: Option<real>)

  datatype Status = Status(color: string, text: string, alert: bool)

  /** `getBudgetStatus(percentage)`. */
  function GetBudgetStatus(percentage: real): (s: Status)
    ensures percentage >= 100.0 ==> s == Status("bg-red-500", "Over Budget", true)
    ensures 80.0 <= percentage < 100.0 ==> s == Status("bg-yellow-500", "Warning", true)
    ensures percentage < 80.0 ==> s == Status("bg-green-500", "On Track", false)
    ensures s.alert <==> percentage >= 80.0
  {
    if percentage >= 100.0 then Status("bg-red-500", "Over Budget", true)
    else if percentage >= 80.0 then Status("bg-yellow-500", "Warning", true)
    else Status("bg-green-500", "On Track", false)
  }

  /** `budget.percentage_used || 0`. */
  function PercentageUsed(b: Budget): real {
    b.percentageUsed.GetOr(0.0)
  }

  /** The progress bar's value: `Math.min(percentage_used || 0, 100)`. */
  function Progress(b: Budget): (p: real)
    ensures p <= 100.0
    ensures PercentageUsed(b) <= 100.0 ==> p == PercentageUsed(b)
  {
    if PercentageUsed(b) < 100.0 then PercentageUsed(b) else 100.0
  }

  /** "Total Allocated": the sum of `parseFloat(b.amount || 0)`. */
  function TotalAllocated(budgets: seq<Budget>, parse: string -> int): int {
    Seqs.Sum(budgets, (b: Budget) => ParseCents(Or(b.amount, Num(0)), parse))
  }

  /** A budget with no amount adds nothing to the total. */
  lemma MissingAmountAddsNothing(budgets: seq<Budget>, b: Budget, parse: string -> int)
    requires !Truthy(b.amount)
    ensures TotalAllocated(budgets + [b], parse) == TotalAllocated(budgets, parse)
  {
    Seqs.SumAppend(budgets, [b], (b: Budget) => ParseCents(Or(b.amount, Num(0)), parse));
  }

  /** "Budgets at Risk": `budgets.filter(b => b.percentage_used >= 80).length`
      (an absent percentage compares false). */
  function AtRisk(budgets: seq<Budget>): (n: nat)
    ensures n <= |budgets|
  {
    Seqs.Count(budgets, (b: Budget) => b.percentageUsed.Some? && b.percentageUsed.value >= 80.0)
  }

  /** The at-risk count is the number of budgets whose card shows an alert. */
  lemma {:induction false} AtRiskCountsAlerts(budgets: seq<Budget>)
    ensures AtRisk(budgets) == Seqs.Count(budgets, (b: Budget) => GetBudgetStatus(PercentageUsed(b)).alert)
    decreases |budgets|
  {
    if |budgets| > 0 {
      AtRiskCountsAlerts(budgets[1..]);
    }
  }

  /** "Remaining": `parseFloat(remaining_amount || amount || 0)`. */
  function Remaining(b: Budget, parse: string -> int): int {
    ParseCents(Or(b.remainingAmount, Or(b.amount, Num(0))), parse)
  }

  /** A numeric zero remaining falls back to the amount, but the string "0.00"
      the server sends is truthy and is shown as it is. */
  lemma RemainingFallback(b: Budget, parse: string -> int)
    ensures b.remainingAmount == Num(0) ==> Remaining(b, parse) == ParseCents(Or(b.amount, Num(0)), parse)
    ensures b.remainingAmount == Str("0.00") ==> Remaining(b, parse) == parse("0.00")
    ensures !Truthy(b.remainingAmount) && !Truthy(b.amount) ==> Remaining(b, parse) == 0
  {
  }

  /** Only expense categories are offered for a new budget. */
  function BudgetCategories(cats: seq<Category>): (r: seq<Category>)
    ensures Seqs.IsSubseq(r, cats)
    ensures forall i :: 0 <= i < |r| ==> r[i].kind == "expense"
  {
    Seqs.Filter(cats, (c: Category) => c.kind == "expense")
  }

  lemma BudgetCategoriesMembership(cats: seq<Category>, c: Category)
    ensures c in BudgetCategories(cats) <==> c in cats && c.kind == "expense"
  {
    Seqs.FilterMembership(cats, (c: Category) => c.kind == "expense", c);
  }
}
