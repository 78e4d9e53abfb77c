/** `TransactionViewSet` of the backend: the requesting user's queryset in the
    model's ordering, the `stats`, `bulk_delete`, `recent` and `trends` actions. */
module TransactionViews {
  import opened Wrappers
  import Seqs
  import Text
  import TxModel
  import Grouping

  type TxRow = TxModel.TxRow
  type CategoryGroup = Grouping.Group<Option<int>>

  // ---- get_queryset ----

  /** `Transaction.objects.filter(user=request.user)` under `ordering = ['-date', '-created_at']`. */
  function Queryset(rows: seq<TxRow>, user: int): (r: seq<TxRow>)
    ensures multiset(r) == multiset(TxModel.OfUser(rows, user))
    ensures Seqs.SortedDesc(r, TxModel.ByDateThenCreated)
  {
    Seqs.SortDesc(TxModel.OfUser(rows, user), TxModel.ByDateThenCreated)
  }

  /** Every action sees exactly the requesting user's transactions. */
  lemma QuerysetMembership(rows: seq<TxRow>, user: int, t: TxRow)
    ensures t in Queryset(rows, user) <==> t in rows && t.user == user
  {
    var r := Queryset(rows, user);
    assert t in r <==> t in multiset(r);
    Seqs.FilterMembership(rows, (t: TxRow) => t.user == user, t);
  }

  // ---- stats ----

  /** `if start_date: queryset = queryset.filter(date__gte=start_date)`. */
  function Since(q: seq<TxRow>, startDate: Option<int>): seq<TxRow> {
    if startDate.Some? then Seqs.Filter(q, (t: TxRow) => t.date >= startDate.value) else q
  }

  /** `if end_date: queryset = queryset.filter(date__lte=end_date)`. */
  function Until(q: seq<TxRow>, endDate: Option<int>): seq<TxRow> {
    if endDate.Some? then Seqs.Filter(q, (t: TxRow) => t.date <= endDate.value) else q
  }

  /** The rows `stats` summarises. `None` stands for a parameter that is missing or empty. */
  function StatsRows(rows: seq<TxRow>, user: int, startDate: Option<int>, endDate: Option<int>): (r: seq<TxRow>)
    ensures forall i :: 0 <= i < |r| ==>
              (startDate.Some? ==> r[i].date >= startDate.value) && (endDate.Some? ==> r[i].date <= endDate.value)
  {
    var since := Since(Queryset(rows, user), startDate);
    var r := Until(since, endDate);
    if startDate.Some? && endDate.Some? then
      Seqs.SubseqAll(r, since, (t: TxRow) => t.date >= startDate.value);
      r
    else r
  }

  /** Each date bound applies only when it is supplied, and both are inclusive. */
  lemma StatsRowsMembership(rows: seq<TxRow>, user: int, startDate: Option<int>, endDate: Option<int>, t: TxRow)
    ensures t in StatsRows(rows, user, startDate, endDate) <==>
            t in rows && t.user == user &&
            (startDate.Some? ==> t.date >= startDate.value) &&
            (endDate.Some? ==> t.date <= endDate.value)
  {
    var q := Queryset(rows, user);
    QuerysetMembership(rows, user, t);
    if startDate.Some? {
      Seqs.FilterMembership(q, (t: TxRow) => t.date >= startDate.value, t);
    }
    if endDate.Some? {
      Seqs.FilterMembership(Since(q, startDate), (t: TxRow) => t.date <= endDate.value, t);
    }
  }

  /** `{'total': .., 'count': ..}` of one category. */
  datatype Tally = Tally(total: int, count: nat)

  /** The dictionary comprehension `{cat['category']: {...} for cat in categories}`:
      later entries overwrite earlier ones with the same key. */
  function ToDict(gs: seq<CategoryGroup>): (d: map<Option<int>, Tally>)
    ensures forall c :: c in d <==> exists i :: 0 <= i < |gs| && gs[i].key == c
    decreases |gs|
  {
    if |gs| == 0 then map[]
    else
      var before := ToDict(gs[..|gs| - 1]);
      var g := gs[|gs| - 1];
      assert forall i :: 0 <= i < |gs| - 1 ==> gs[..|gs| - 1][i] == gs[i];
      before[g.key := Tally(g.total, g.count)]
  }

  lemma {:induction false} ToDictAt(gs: seq<CategoryGroup>, i: nat)
    requires i < |gs|
    requires forall a, b :: 0 <= a < b < |gs| ==> gs[a].key != gs[b].key
    ensures gs[i].key in ToDict(gs) && ToDict(gs)[gs[i].key] == Tally(gs[i].total, gs[i].count)
    decreases |gs|
  {
    var n := |gs| - 1;
    if i < n {
      assert gs[..n][i] == gs[i];
      ToDictAt(gs[..n], i);
    }
  }

  /** One type's `values('category').annotate(total=Sum('amount'), count=Count('id'))` as a dictionary. */
  function Tallies(q: seq<TxRow>, kind: string): map<Option<int>, Tally> {
    ToDict(Grouping.Groups(TxModel.OfKind(q, kind), TxModel.CategoryKey))
  }

  /** The statistics `stats` returns. */
  datatype Stats = Stats(totalIncome: int, totalExpenses: int, balance: int, transactionCount: nat,
                         categoryBreakdown: map<string, map<Option<int>, Tally>>)

  const Types: seq<string> := ["income", "expense"]

  /** A date parameter that is supplied but is not a date. */
  predicate BadDate(text: Option<string>, parseDay: string -> Option<int>) {
    text.Some? && parseDay(text.value).None?
  }

  /** The day a supplied date parameter names. */
  function DateBound(text: Option<string>, parseDay: string -> Option<int>): Option<int> {
    if text.Some? then parseDay(text.value) else None
  }

  /** `stats`: totals (0 when a type has no rows), balance, count, and the per-type
      category breakdown filled by the loop over both types. The date parameters
      arrive as text (`None` when missing or empty) and `parseDay` is the date
      field's conversion; a text that is not a date makes the filter raise a
      `ValidationError` nobody catches (a 500), which is `None` here. */
  method ComputeStats(rows: seq<TxRow>, user: int, startText: Option<string>, endText: Option<string>,
                      parseDay: string -> Option<int>) returns (r: Option<Stats>)
    ensures r.None? <==> BadDate(startText, parseDay) || BadDate(endText, parseDay)
    ensures r.Some? ==>
      var q := StatsRows(rows, user, DateBound(startText, parseDay), DateBound(endText, parseDay));
      r.value.totalIncome == TxModel.AmountSum(TxModel.OfKind(q, "income")) &&
      r.value.totalExpenses == TxModel.AmountSum(TxModel.OfKind(q, "expense")) &&
      r.value.transactionCount == |q| &&
      r.value.balance == r.value.totalIncome - r.value.totalExpenses &&
      r.value.categoryBreakdown.Keys == {"income", "expense"} &&
      forall k :: k in r.value.categoryBreakdown ==> r.value.categoryBreakdown[k] == Tallies(q, k)
  {
    if BadDate(startText, parseDay) || BadDate(endText, parseDay) {
      return None;
    }
    var startDate := DateBound(startText, parseDay);
    var endDate := DateBound(endText, parseDay);
    var queryset := Queryset(rows, user);
    queryset := Since(queryset, startDate);
    queryset := Until(queryset, endDate);
    var incomeTotal := TxModel.AmountSum(TxModel.OfKind(queryset, "income"));
    var expenseTotal := TxModel.AmountSum(TxModel.OfKind(queryset, "expense"));
    var breakdown := Breakdown((kind: string) => Tallies(queryset, kind));
    r := Some(Stats(incomeTotal, expenseTotal, incomeTotal - expenseTotal, |queryset|, breakdown));
  }

  /** The loop over both types that fills `category_breakdown`; `talliesOf` is the
      per-type query. */
  method Breakdown(talliesOf: string -> map<Option<int>, Tally>) returns (breakdown: map<string, map<Option<int>, Tally>>)
    ensures breakdown.Keys == {"income", "expense"}
    ensures forall k :: k in breakdown ==> breakdown[k] == talliesOf(k)
  {
    breakdown := map[];
    for i := 0 to |Types|
      invariant i == 0 ==> breakdown == map[]
      invariant i == 1 ==> breakdown == map["income" := talliesOf("income")]
      invariant i == 2 ==> breakdown == map["income" := talliesOf("income"), "expense" := talliesOf("expense")]
    {
      var kind := Types[i];
      breakdown := breakdown[kind := talliesOf(kind)];
    }
  }

  /** A type's breakdown lists a category iff some row of that type has it. */
  lemma TalliesDomain(q: seq<TxRow>, kind: string, c: Option<int>)
    ensures c in Tallies(q, kind) <==> exists t :: t in q && t.kind == kind && TxModel.CategoryKey(t) == c
  {
    var ofKind := TxModel.OfKind(q, kind);
    TalliesKeys(q, kind, c);
    if c in Tallies(q, kind) {
      var j :| 0 <= j < |ofKind| && TxModel.CategoryKey(ofKind[j]) == c;
      OfKindRowIn(q, kind, ofKind[j]);
    }
    if exists t :: t in q && t.kind == kind && TxModel.CategoryKey(t) == c {
      var t :| t in q && t.kind == kind && TxModel.CategoryKey(t) == c;
      OfKindRowIn(q, kind, t);
      var j :| 0 <= j < |ofKind| && ofKind[j] == t;
      assert TxModel.CategoryKey(ofKind[j]) == c;
    }
  }

  /** A type's breakdown lists exactly the categories of that type's rows. */
  lemma TalliesKeys(q: seq<TxRow>, kind: string, c: Option<int>)
    ensures var ofKind := TxModel.OfKind(q, kind);
            c in Tallies(q, kind) <==> exists j :: 0 <= j < |ofKind| && TxModel.CategoryKey(ofKind[j]) == c
  {
    var ofKind := TxModel.OfKind(q, kind);
    var gs := Grouping.Groups(ofKind, TxModel.CategoryKey);
    Grouping.GroupsCover(ofKind, TxModel.CategoryKey, c);
    assert c in ToDict(gs) <==> exists i :: 0 <= i < |gs| && gs[i].key == c;
  }

  /** A row is among one type's rows iff it is a row of that type. */
  lemma OfKindRowIn(q: seq<TxRow>, kind: string, t: TxRow)
    ensures t in TxModel.OfKind(q, kind) <==> t in q && t.kind == kind
  {
    Seqs.FilterMembership(q, (t: TxRow) => t.kind == kind, t);
  }

  /** A listed category carries that type's exact total and number of rows in it. */
  lemma TalliesEntry(q: seq<TxRow>, kind: string, c: Option<int>)
    requires c in Tallies(q, kind)
    ensures var m := Grouping.Members(TxModel.OfKind(q, kind), TxModel.CategoryKey, c);
            Tallies(q, kind)[c] == Tally(TxModel.AmountSum(m), |m|)
  {
    var ofKind := TxModel.OfKind(q, kind);
    var gs := Grouping.Groups(ofKind, TxModel.CategoryKey);
    var i :| 0 <= i < |gs| && gs[i].key == c;
    ToDictAt(gs, i);
    var ks := Grouping.Keys(ofKind, TxModel.CategoryKey);
    assert gs == Grouping.GroupsFor(ofKind, TxModel.CategoryKey, ks);
    assert gs[i] == Grouping.GroupOf(ofKind, TxModel.CategoryKey, ks[i]);
  }

  function TallyCount(d: map<Option<int>, Tally>, c: Option<int>): nat {
    if c in d then d[c].count else 0
  }

  function TallyTotal(d: map<Option<int>, Tally>, c: Option<int>): int {
    if c in d then d[c].total else 0
  }

  lemma {:induction false} TallySums(ofKind: seq<TxRow>, ks: seq<Option<int>>, d: map<Option<int>, Tally>)
    requires forall c :: c in ks ==> (c in d &&
               d[c] == Tally(TxModel.AmountSum(Grouping.Members(ofKind, TxModel.CategoryKey, c)),
                             |Grouping.Members(ofKind, TxModel.CategoryKey, c)|))
    ensures Seqs.Sum(ks, (c: Option<int>) => TallyCount(d, c))
         == Grouping.KeyedSum(ofKind, TxModel.CategoryKey, ks, (t: TxRow) => 1)
    ensures Seqs.Sum(ks, (c: Option<int>) => TallyTotal(d, c))
         == Grouping.KeyedSum(ofKind, TxModel.CategoryKey, ks, (t: TxRow) => t.amount)
    decreases |ks|
  {
    if |ks| > 0 {
      assert ks[0] in ks;
      assert forall c :: c in ks[1..] ==> c in ks;
      TallySums(ofKind, ks[1..], d);
      Seqs.SumOfOnes(Grouping.Members(ofKind, TxModel.CategoryKey, ks[0]));
    }
  }

  /** The breakdown partitions a type's rows: over the categories present, the
      counts add up to the number of rows of that type and the totals to their sum. */
  lemma TalliesPartition(q: seq<TxRow>, kind: string)
    ensures var ofKind := TxModel.OfKind(q, kind);
            var ks := Grouping.Keys(ofKind, TxModel.CategoryKey);
            Seqs.Sum(ks, (c: Option<int>) => TallyCount(Tallies(q, kind), c)) == |ofKind| &&
            Seqs.Sum(ks, (c: Option<int>) => TallyTotal(Tallies(q, kind), c)) == TxModel.AmountSum(ofKind)
  {
    var ofKind := TxModel.OfKind(q, kind);
    var ks := Grouping.Keys(ofKind, TxModel.CategoryKey);
    var d := Tallies(q, kind);
    forall c | c in ks
      ensures c in d && d[c] == Tally(TxModel.AmountSum(Grouping.Members(ofKind, TxModel.CategoryKey, c)),
                                      |Grouping.Members(ofKind, TxModel.CategoryKey, c)|)
    {
      var i :| 0 <= i < |ks| && ks[i] == c;
      ToDictAt(Grouping.Groups(ofKind, TxModel.CategoryKey), i);
    }
    TallySums(ofKind, ks, d);
    Grouping.KeyedSumIsSum(ofKind, TxModel.CategoryKey, (t: TxRow) => 1);
    Grouping.KeyedSumIsSum(ofKind, TxModel.CategoryKey, (t: TxRow) => t.amount);
    Seqs.SumOfOnes(ofKind);
  }

  /** A row's effect on the balance: plus its amount for income, minus for an expense. */
  function SignedAmount(t: TxRow): int {
    if t.kind == "income" then t.amount else if t.kind == "expense" then -t.amount else 0
  }

  lemma {:induction false} SignedSum(q: seq<TxRow>)
    ensures Seqs.Sum(q, TxModel.IncomeAmount) - Seqs.Sum(q, TxModel.ExpenseAmount) == Seqs.Sum(q, SignedAmount)
    decreases |q|
  {
    if |q| > 0 { SignedSum(q[1..]); }
  }

  /** The balance is the signed sum of the rows, income counted up and expenses down. */
  lemma BalanceIsSignedSum(q: seq<TxRow>)
    ensures TxModel.AmountSum(TxModel.OfKind(q, "income")) - TxModel.AmountSum(TxModel.OfKind(q, "expense"))
         == Seqs.Sum(q, SignedAmount)
  {
    TxModel.IncomeScan(q);
    TxModel.ExpenseScan(q);
    SignedSum(q);
  }

  // ---- bulk_delete ----

  /** A response: status code and the one key of its body with its text. */
  datatype Reply = Reply(status: int, key: string, text: string)

  /** `filter(id__in=ids)` on the user's queryset. */
  predicate Doomed(t: TxRow, user: int, ids: seq<int>) {
    t.user == user && t.id in ids
  }

  function Survivors(rows: seq<TxRow>, user: int, ids: seq<int>): (r: seq<TxRow>)
    ensures Seqs.IsSubseq(r, rows)
  {
    Seqs.Filter(rows, (t: TxRow) => !Doomed(t, user, ids))
  }

  const DeletedSuffix := " transactions deleted successfully"

  /** The reply's message: the count in digits, then the fixed text. */
  function DeletedMessage(n: nat): (m: string)
    ensures |m| > |DeletedSuffix| && m[|m| - |DeletedSuffix|..] == DeletedSuffix
    ensures var digits := m[..|m| - |DeletedSuffix|];
            (forall i :: 0 <= i < |digits| ==> '0' <= digits[i] <= '9') && Text.DigitsValue(digits) == n
  {
    var digits := Text.NatText(n);
    var m := digits + DeletedSuffix;
    assert m[..|m| - |DeletedSuffix|] == digits;
    assert m[|m| - |DeletedSuffix|..] == DeletedSuffix;
    Text.NatTextValue(n);
    m
  }

  /** Exactly the user's rows with a listed id go; every other row stays. */
  lemma SurvivorsMembership(rows: seq<TxRow>, user: int, ids: seq<int>, t: TxRow)
    ensures t in Survivors(rows, user, ids) <==> t in rows && (t.user != user || t.id !in ids)
  {
    Seqs.FilterMembership(rows, (t: TxRow) => !Doomed(t, user, ids), t);
  }

  /** The reported count is the number of rows that matched. */
  lemma DeletedCount(rows: seq<TxRow>, user: int, ids: seq<int>)
    ensures |rows| - |Survivors(rows, user, ids)| == Seqs.Count(rows, (t: TxRow) => Doomed(t, user, ids))
  {
    DeletedCountFrom(rows, user, ids);
  }

  lemma {:induction false} DeletedCountFrom(rows: seq<TxRow>, user: int, ids: seq<int>)
    ensures |Survivors(rows, user, ids)| + Seqs.Count(rows, (t: TxRow) => Doomed(t, user, ids)) == |rows|
    decreases |rows|
  {
    if |rows| > 0 { DeletedCountFrom(rows[1..], user, ids); }
  }

  /** The transaction table. */
  class TransactionTable {
    var rows: seq<TxRow>

    constructor (rows: seq<TxRow>)
      ensures this.rows == rows
    {
      this.rows := rows;
    }

    /** `bulk_delete`: `ids` is `request.data.get('ids', [])`, so a missing key is `[]`. */
    method BulkDelete(user: int, ids: seq<int>) returns (reply: Reply)
      modifies this
      ensures ids == [] ==> reply == Reply(400, "error", "No transaction IDs provided") && rows == old(rows)
      ensures ids != [] ==> rows == Survivors(old(rows), user, ids) &&
                            reply == Reply(200, "message", DeletedMessage(|old(rows)| - |rows|))
    {
      if ids == [] {
        return Reply(400, "error", "No transaction IDs provided");
      }
      var before := |rows|;
      rows := Survivors(rows, user, ids);
      var deletedCount := before - |rows|;
      reply := Reply(200, "message", DeletedMessage(deletedCount));
    }
  }

  // ---- recent ----

  /** `self.get_queryset()[:10]`. */
  function Recent(rows: seq<TxRow>, user: int): (r: seq<TxRow>)
    ensures |r| <= 10 && |r| <= |Queryset(rows, user)|
    ensures forall i :: 0 <= i < |r| ==> r[i] == Queryset(rows, user)[i]
  {
    Seqs.Take(Queryset(rows, user), 10)
  }

  /** `recent` lists at most ten of the user's rows, newest first, and every row of
      the user it leaves out is no newer (by date, then creation time) than any it lists. */
  lemma RecentIsNewest(rows: seq<TxRow>, user: int)
    ensures var r := Recent(rows, user);
            var mine := TxModel.OfUser(rows, user);
            |r| == (if |mine| < 10 then |mine| else 10) &&
            multiset(r) <= multiset(mine) &&
            Seqs.SortedDesc(r, TxModel.ByDateThenCreated) &&
            forall t, i :: t in multiset(mine) - multiset(r) && 0 <= i < |r| ==>
              Seqs.KeyGeq(TxModel.ByDateThenCreated(r[i]), TxModel.ByDateThenCreated(t))
  {
    var q := Queryset(rows, user);
    var n := if |q| < 10 then |q| else 10;
    assert Recent(rows, user) == q[..n];
    assert |q| == |multiset(q)| == |multiset(TxModel.OfUser(rows, user))|;
    SortedPrefix(q, n);
  }

  /** The first `n` rows of a queryset sorted newest first are themselves sorted,
      and no row after them is newer than any of them. */
  lemma SortedPrefix(q: seq<TxRow>, n: nat)
    requires n <= |q| && Seqs.SortedDesc(q, TxModel.ByDateThenCreated)
    ensures Seqs.SortedDesc(q[..n], TxModel.ByDateThenCreated)
    ensures multiset(q[..n]) <= multiset(q)
    ensures forall t, i :: t in multiset(q) - multiset(q[..n]) && 0 <= i < n ==>
              Seqs.KeyGeq(TxModel.ByDateThenCreated(q[..n][i]), TxModel.ByDateThenCreated(t))
  {
    assert q == q[..n] + q[n..];
    assert multiset(q) == multiset(q[..n]) + multiset(q[n..]);
    forall t, i | t in multiset(q) - multiset(q[..n]) && 0 <= i < n
      ensures Seqs.KeyGeq(TxModel.ByDateThenCreated(q[..n][i]), TxModel.ByDateThenCreated(t))
    {
      assert t in multiset(q[n..]);
      LaterNoNewer(q, n, t, i);
    }
  }

  /** In a queryset sorted newest first, a row past position `n` is no newer than any row before it. */
  lemma LaterNoNewer(q: seq<TxRow>, n: nat, t: TxRow, i: nat)
    requires i < n <= |q| && Seqs.SortedDesc(q, TxModel.ByDateThenCreated)
    requires t in q[n..]
    ensures Seqs.KeyGeq(TxModel.ByDateThenCreated(q[i]), TxModel.ByDateThenCreated(t))
  {
    var k :| 0 <= k < |q[n..]| && q[n..][k] == t;
    assert q[n + k] == t;
  }

  // ---- trends ----

  /** `TruncDate('date')`: a date field is already a day. */
  function DateOf(t: TxRow): int {
    t.date
  }

  /** The key of `order_by('date_only')`, ascending. */
  function Ascending(d: int): (int, int) {
    (-d, 0)
  }

  /** The distinct days, in ascending order. */
  function TrendDays(q: seq<TxRow>): (r: seq<int>)
    ensures multiset(r) == multiset(Grouping.Keys(q, DateOf))
  {
    Seqs.SortDesc(Grouping.Keys(q, DateOf), Ascending)
  }

  /** One entry of `trends`: the day's income and expense sums, 0 for a side with
      no rows (`entry['income'] or 0`). */
  datatype Trend = Trend(day: int, income: int, expense: int)

  function TrendOn(q: seq<TxRow>, d: int): Trend {
    var m := Grouping.Members(q, DateOf, d);
    Trend(d, Seqs.Sum(m, TxModel.IncomeAmount), Seqs.Sum(m, TxModel.ExpenseAmount))
  }

  function TrendsFor(q: seq<TxRow>, days: seq<int>): (r: seq<Trend>)
    ensures |r| == |days| && forall i :: 0 <= i < |r| ==> r[i] == TrendOn(q, days[i])
    decreases |days|
  {
    if |days| == 0 then [] else [TrendOn(q, days[0])] + TrendsFor(q, days[1..])
  }

  /** `trends`: the loop formats one entry per annotated day. */
  method Trends(rows: seq<TxRow>, user: int) returns (data: seq<Trend>)
    ensures data == TrendsFor(Queryset(rows, user), TrendDays(Queryset(rows, user)))
  {
    var queryset := Queryset(rows, user);
    var trends := TrendDays(queryset);
    data := FormatTrends(queryset, trends);
  }

  /** The loop of `trends` that formats one entry per annotated day. */
  method FormatTrends(queryset: seq<TxRow>, trends: seq<int>) returns (data: seq<Trend>)
    ensures data == TrendsFor(queryset, trends)
  {
    data := [];
    for i := 0 to |trends|
      invariant |data| == i
      invariant forall j :: 0 <= j < i ==> data[j] == TrendOn(queryset, trends[j])
    {
      data := data + [TrendOn(queryset, trends[i])];
    }
    ghost var expected := TrendsFor(queryset, trends);
    assert forall j :: 0 <= j < |data| ==> data[j] == expected[j];
  }

  function TrendIncome(e: Trend): int { e.income }

  function TrendExpense(e: Trend): int { e.expense }

  lemma {:induction false} TrendsSumIsKeyedSum(q: seq<TxRow>, days: seq<int>)
    ensures Seqs.Sum(TrendsFor(q, days), TrendIncome) == Grouping.KeyedSum(q, DateOf, days, TxModel.IncomeAmount)
    ensures Seqs.Sum(TrendsFor(q, days), TrendExpense) == Grouping.KeyedSum(q, DateOf, days, TxModel.ExpenseAmount)
    decreases |days|
  {
    if |days| > 0 { TrendsSumIsKeyedSum(q, days[1..]); }
  }

  /** The days of `trends` are strictly ascending. */
  lemma TrendDaysAscending(q: seq<TxRow>)
    ensures var days := TrendDays(q);
            forall i, j :: 0 <= i < j < |days| ==> days[i] < days[j]
  {
    var ks := Grouping.Keys(q, DateOf);
    var days := TrendDays(q);
    assert Seqs.Distinct(ks);
    Seqs.DistinctPermutation(ks, days);
    forall i, j | 0 <= i < j < |days| ensures days[i] < days[j] {
      assert Seqs.KeyGeq(Ascending(days[i]), Ascending(days[j]));
      assert days[i] != days[j];
    }
  }

  /** A day is listed iff the user has a transaction on it. */
  lemma TrendDaysCover(rows: seq<TxRow>, user: int, d: int)
    ensures d in TrendDays(Queryset(rows, user)) <==> exists t :: t in rows && t.user == user && t.date == d
  {
    var q := Queryset(rows, user);
    var ks := Grouping.Keys(q, DateOf);
    var days := TrendDays(q);
    assert d in days <==> d in multiset(ks);
    Grouping.KeysComplete(q, DateOf, d);
    if d in ks {
      var i :| 0 <= i < |q| && DateOf(q[i]) == d;
      QuerysetMembership(rows, user, q[i]);
    }
    if exists t :: t in rows && t.user == user && t.date == d {
      var t :| t in rows && t.user == user && t.date == d;
      QuerysetMembership(rows, user, t);
      var i :| 0 <= i < |q| && q[i] == t;
      assert DateOf(q[i]) == d;
    }
  }

  /** Every row lands on exactly one day: the daily income and expense figures add
      up to the user's income and expense totals. */
  lemma TrendsAddUp(rows: seq<TxRow>, user: int)
    ensures var q := Queryset(rows, user);
            var data := TrendsFor(q, TrendDays(q));
            Seqs.Sum(data, TrendIncome) == TxModel.AmountSum(TxModel.OfKind(q, "income")) &&
            Seqs.Sum(data, TrendExpense) == TxModel.AmountSum(TxModel.OfKind(q, "expense"))
  {
    var q := Queryset(rows, user);
    var ks := Grouping.Keys(q, DateOf);
    var days := TrendDays(q);
    TrendsSumIsKeyedSum(q, days);
    Grouping.KeyedSumAsSum(q, DateOf, days, TxModel.IncomeAmount);
    Grouping.KeyedSumAsSum(q, DateOf, ks, TxModel.IncomeAmount);
    Seqs.SumPermutation(days, ks, (c: int) => Seqs.Sum(Grouping.Members(q, DateOf, c), TxModel.IncomeAmount));
    Grouping.KeyedSumIsSum(q, DateOf, TxModel.IncomeAmount);
    TxModel.IncomeScan(q);
    Grouping.KeyedSumAsSum(q, DateOf, days, TxModel.ExpenseAmount);
    Grouping.KeyedSumAsSum(q, DateOf, ks, TxModel.ExpenseAmount);
    Seqs.SumPermutation(days, ks, (c: int) => Seqs.Sum(Grouping.Members(q, DateOf, c), TxModel.ExpenseAmount));
    Grouping.KeyedSumIsSum(q, DateOf, TxModel.ExpenseAmount);
    TxModel.ExpenseScan(q);
  }
}
