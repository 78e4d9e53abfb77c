/** The stored records of the finance backend: categories and transactions, as
    the ORM returns them, with amounts in cents and dates as day numbers. */
module TxModel {
  import opened Wrappers
  import Seqs

  /** `Category`: owned by a user, unique per (user, name). */
  datatype CategoryRow = CategoryRow(id: int, user: int, name: string, icon: string, kind: string)

  /** `Transaction`: `category` is a nullable foreign key, `notes` nullable text. */
  datatype TxRow = TxRow(id: int, user: int, amount: int, date: int, merchant: string,
                         category: Option<CategoryRow>, kind: string, notes: Option<string>,
                         createdAt: int)

  /** `str(category)`: `"<icon> <name> (<type>)"`. */
  function CategoryText(c: CategoryRow): string {
    c.icon + " " + c.name + " (" + c.kind + ")"
  }

  /** What `values('category')` groups on: the category's key, or None. */
  function CategoryKey(t: TxRow): Option<int> {
    if t.category.Some? then Some(t.category.value.id) else None
  }

  /** `Transaction.objects.filter(user=user)`. */
  function OfUser(rows: seq<TxRow>, user: int): (r: seq<TxRow>)
    ensures Seqs.IsSubseq(r, rows)
    ensures forall i :: 0 <= i < |r| ==> r[i].user == user
  {
    Seqs.Filter(rows, (t: TxRow) => t.user == user)
  }

  /** `Sum('amount')` over `rows`, with `or Decimal('0.00')` for an empty set. */
  function AmountSum(rows: seq<TxRow>): int {
    Seqs.Sum(rows, (t: TxRow) => t.amount)
  }

  /** `filter(type=kind)`. */
  function OfKind(rows: seq<TxRow>, kind: string): (r: seq<TxRow>)
    ensures Seqs.IsSubseq(r, rows)
    ensures forall i :: 0 <= i < |r| ==> r[i].kind == kind
  {
    Seqs.Filter(rows, (t: TxRow) => t.kind == kind)
  }

  /** A set with no rows of a kind sums to zero for that kind. */
  lemma {:induction false} AbsentKindSumsToZero(rows: seq<TxRow>, kind: string)
    requires forall i :: 0 <= i < |rows| ==> rows[i].kind != kind
    ensures AmountSum(OfKind(rows, kind)) == 0
    decreases |rows|
  {
    if |rows| > 0 {
      AbsentKindSumsToZero(rows[1..], kind);
      assert OfKind(rows, kind) == OfKind(rows[1..], kind);
    }
  }

  /** The key of `order_by('-date')`. */
  function ByDate(t: TxRow): (int, int) {
    (t.date, 0)
  }

  /** The key of the model's default ordering `['-date', '-created_at']`. */
  function ByDateThenCreated(t: TxRow): (int, int) {
    (t.date, t.createdAt)
  }
  /** The weight of a row in a sum restricted to one type (`Sum('amount', filter=Q(type=kind))`). */
  function KindAmount(t: TxRow, kind: string): int {
    if t.kind == kind then t.amount else 0
  }

  function IncomeAmount(t: TxRow): int { KindAmount(t, "income") }

  function ExpenseAmount(t: TxRow): int { KindAmount(t, "expense") }

  /** Filtering on a type and then summing is the same as one conditional sum. */
  lemma {:induction false} OfKindSumIsScan(rows: seq<TxRow>, kind: string)
    ensures AmountSum(OfKind(rows, kind)) == Seqs.Sum(rows, (t: TxRow) => KindAmount(t, kind))
    decreases |rows|
  {
    if |rows| > 0 {
      OfKindSumIsScan(rows[1..], kind);
      assert rows == [rows[0]] + rows[1..];
    }
  }

  lemma IncomeScan(rows: seq<TxRow>)
    ensures AmountSum(OfKind(rows, "income")) == Seqs.Sum(rows, IncomeAmount)
  {
    OfKindSumIsScan(rows, "income");
    ScanSame(rows, (t: TxRow) => KindAmount(t, "income"), IncomeAmount);
  }

  lemma ExpenseScan(rows: seq<TxRow>)
    ensures AmountSum(OfKind(rows, "expense")) == Seqs.Sum(rows, ExpenseAmount)
  {
    OfKindSumIsScan(rows, "expense");
    ScanSame(rows, (t: TxRow) => KindAmount(t, "expense"), ExpenseAmount);
  }

  lemma {:induction false} ScanSame(rows: seq<TxRow>, f: TxRow -> int, g: TxRow -> int)
    requires forall t :: f(t) == g(t)
    ensures Seqs.Sum(rows, f) == Seqs.Sum(rows, g)
    decreases |rows|
  {
    if |rows| > 0 { ScanSame(rows[1..], f, g); }
  }
}
