/** `ReportService` of the backend: the report query (user, inclusive date range,
    optional type), its exact totals in cents, the period and ratio insights, the
    per-category breakdown, and the saved-report row. The query-string dates reach
    the service as text; `parseDate` stands for the date conversion the ORM and
    `strptime` apply to them (a day number, or the text of the exception raised). */
module ReportService {
  import opened Wrappers
  import Seqs
  import TxModel
  import Grouping

  type TxRow = TxModel.TxRow
  type CategoryGroup = Grouping.Group<Option<int>>

  /** `filter(user=user, date__gte=start, date__lte=end)`: both ends inclusive. */
  predicate InPeriod(t: TxRow, user: int, startDay: int, endDay: int) {
    t.user == user && startDay <= t.date <= endDay
  }

  function PeriodRows(rows: seq<TxRow>, user: int, startDay: int, endDay: int): (r: seq<TxRow>)
    ensures forall i :: 0 <= i < |r| ==> InPeriod(r[i], user, startDay, endDay)
    ensures Seqs.IsSubseq(r, rows)
  {
    Seqs.Filter(rows, (t: TxRow) => InPeriod(t, user, startDay, endDay))
  }

  /** The report's queryset: the period rows, narrowed to one type unless `'all'`. */
  function ReportRows(rows: seq<TxRow>, user: int, startDay: int, endDay: int, reportType: string): seq<TxRow> {
    var q := PeriodRows(rows, user, startDay, endDay);
    if reportType != "all" then TxModel.OfKind(q, reportType) else q
  }

  /** A stored transaction is in the report iff it is the user's, dated within the
      range (both ends included), and of the chosen type or the type is `'all'`. */
  lemma ReportMembership(rows: seq<TxRow>, user: int, startDay: int, endDay: int, reportType: string, t: TxRow)
    ensures t in ReportRows(rows, user, startDay, endDay, reportType) <==>
            t in rows && t.user == user && startDay <= t.date <= endDay &&
            (reportType == "all" || t.kind == reportType)
  {
    var q := PeriodRows(rows, user, startDay, endDay);
    Seqs.FilterMembership(rows, (t: TxRow) => InPeriod(t, user, startDay, endDay), t);
    if reportType != "all" {
      Seqs.FilterMembership(q, (x: TxRow) => x.kind == reportType, t);
    }
  }

  /** `_calculate_insights`, with exact rationals in place of floats. */
  datatype Insights = Insights(spendingRatio: real, avgTransactionsPerDay: real,
                               daysInPeriod: int, financialHealth: string)

  function CalculateInsights(totalIncome: int, totalExpenses: int, transactionCount: nat,
                             startDay: int, endDay: int): (r: Insights)
    // The period counts both of its ends.
    ensures r.daysInPeriod == endDay - startDay + 1
    ensures r.daysInPeriod > 0 ==> r.avgTransactionsPerDay * r.daysInPeriod as real == transactionCount as real
    ensures r.daysInPeriod <= 0 ==> r.avgTransactionsPerDay == 0.0
    // Expenses as a percentage of income, and 0 whenever there is no positive income.
    ensures totalIncome <= 0 ==> r.spendingRatio == 0.0
    ensures totalIncome > 0 ==> r.spendingRatio * totalIncome as real == totalExpenses as real * 100.0
    ensures r.financialHealth == "positive" || r.financialHealth == "negative"
    ensures r.financialHealth == "positive" <==> totalIncome >= totalExpenses
  {
    var days := endDay - startDay + 1;
    var avg := if days > 0 then transactionCount as real / days as real else 0.0;
    var ratio := if totalIncome > 0 then totalExpenses as real / totalIncome as real * 100.0 else 0.0;
    var health := if totalIncome - totalExpenses >= 0 then "positive" else "negative";
    Insights(ratio, avg, days, health)
  }

  datatype Summary = Summary(totalTransactions: nat, totalIncome: int, totalExpenses: int, netAmount: int,
                             startDate: string, endDate: string, reportType: string)

  datatype Report = Report(summary: Summary, insights: Insights, transactions: seq<TxRow>)

  /** The report of a query whose dates were read as `startDay` and `endDay`. */
  function BuildReport(rows: seq<TxRow>, user: int, startDate: string, endDate: string,
                       startDay: int, endDay: int, reportType: string): (r: Report)
    ensures var q := ReportRows(rows, user, startDay, endDay, reportType);
      // Exact totals over the matching rows of each type, zero when none match.
      r.summary.totalIncome == TxModel.AmountSum(TxModel.OfKind(q, "income")) &&
      r.summary.totalExpenses == TxModel.AmountSum(TxModel.OfKind(q, "expense")) &&
      r.summary.netAmount == r.summary.totalIncome - r.summary.totalExpenses &&
      // The listed transactions are the matching ones, newest date first.
      multiset(r.transactions) == multiset(q) &&
      Seqs.SortedDesc(r.transactions, TxModel.ByDate) &&
      r.summary.totalTransactions == |q|
    ensures r.summary.startDate == startDate && r.summary.endDate == endDate && r.summary.reportType == reportType
    ensures r.insights == CalculateInsights(r.summary.totalIncome, r.summary.totalExpenses,
                                            r.summary.totalTransactions, startDay, endDay)
  {
    var q := ReportRows(rows, user, startDay, endDay, reportType);
    var income := TxModel.AmountSum(TxModel.OfKind(q, "income"));
    var expenses := TxModel.AmountSum(TxModel.OfKind(q, "expense"));
    var transactions := Seqs.SortDesc(q, TxModel.ByDate);
    assert |transactions| == |multiset(transactions)| == |multiset(q)| == |q|;
    var insights := CalculateInsights(income, expenses, |transactions|, startDay, endDay);
    Report(Summary(|transactions|, income, expenses, income - expenses, startDate, endDate, reportType),
           insights, transactions)
  }

  /** `generate_report`: a date that does not convert raises, and nothing else can. */
  function GenerateReport(rows: seq<TxRow>, user: int, startDate: string, endDate: string, reportType: string,
                          parseDate: string -> Result<int, string>): (r: Result<Report, string>)
    ensures r.Err? <==> parseDate(startDate).Err? || parseDate(endDate).Err?
    ensures parseDate(startDate).Err? ==> r == Err(parseDate(startDate).error)
    ensures r.Ok? ==> r.value == BuildReport(rows, user, startDate, endDate, parseDate(startDate).value,
                                             parseDate(endDate).value, reportType)
  {
    match parseDate(startDate)
    case Err(e) => Err(e)
    case Ok(startDay) =>
      match parseDate(endDate)
      case Err(e) => Err(e)
      case Ok(endDay) => Ok(BuildReport(rows, user, startDate, endDate, startDay, endDay, reportType))
  }

  /** The type filter applies before summing: an income report has no expenses and
      an expense report no income. */
  lemma OneTypeReport(rows: seq<TxRow>, user: int, startDate: string, endDate: string,
                      startDay: int, endDay: int, reportType: string)
    ensures var r := BuildReport(rows, user, startDate, endDate, startDay, endDay, reportType);
            (reportType == "income" ==> r.summary.totalExpenses == 0 && r.summary.netAmount == r.summary.totalIncome) &&
            (reportType == "expense" ==> r.summary.totalIncome == 0 && r.insights.spendingRatio == 0.0)
  {
    var q := ReportRows(rows, user, startDay, endDay, reportType);
    if reportType == "income" || reportType == "expense" {
      var other := if reportType == "income" then "expense" else "income";
      TxModel.AbsentKindSumsToZero(q, other);
    }
  }

  /** With nothing matching, every total and count is zero and the health is positive. */
  lemma EmptyReport(rows: seq<TxRow>, user: int, startDate: string, endDate: string,
                    startDay: int, endDay: int, reportType: string)
    requires forall i :: 0 <= i < |rows| ==> rows[i].user != user
    ensures var r := BuildReport(rows, user, startDate, endDate, startDay, endDay, reportType);
            r.summary.totalTransactions == 0 && r.summary.totalIncome == 0 && r.summary.totalExpenses == 0 &&
            r.transactions == [] && r.insights.financialHealth == "positive"
  {
    var q := PeriodRows(rows, user, startDay, endDay);
    if |q| > 0 {
      Seqs.FilterMembership(rows, (t: TxRow) => InPeriod(t, user, startDay, endDay), q[0]);
      assert false;
    }
    var r := BuildReport(rows, user, startDate, endDate, startDay, endDay, reportType);
    assert |r.transactions| == |multiset(r.transactions)| == 0;
  }

  // ---- category breakdown ----

  const Types: seq<string> := ["income", "expense"]

  /** One type's entry of the breakdown: its rows grouped by category with total
      and count (`values('category').annotate(..)`), largest total first. */
  function TypeBreakdown(rows: seq<TxRow>, user: int, startDay: int, endDay: int, kind: string): (r: seq<CategoryGroup>)
    ensures Seqs.SortedDesc(r, GroupTotal)
    ensures multiset(r) == multiset(Grouping.Groups(TxModel.OfKind(PeriodRows(rows, user, startDay, endDay), kind),
                                                    TxModel.CategoryKey))
  {
    var q := TxModel.OfKind(PeriodRows(rows, user, startDay, endDay), kind);
    Seqs.SortDesc(Grouping.Groups(q, TxModel.CategoryKey), GroupTotal)
  }

  /** The key of `order_by('-total')`. */
  function GroupTotal(g: CategoryGroup): (int, int) {
    (g.total, 0)
  }

  /** A type's breakdown is ordered by total, descending; one group per category
      present; and its counts and totals add up to that type's number of rows and
      amount in the period. */
  lemma TypeBreakdownSound(rows: seq<TxRow>, user: int, startDay: int, endDay: int, kind: string)
    ensures var b := TypeBreakdown(rows, user, startDay, endDay, kind);
            var q := TxModel.OfKind(PeriodRows(rows, user, startDay, endDay), kind);
            Seqs.SortedDesc(b, GroupTotal) &&
            Seqs.Sum(b, (g: CategoryGroup) => g.count) == |q| &&
            Seqs.Sum(b, (g: CategoryGroup) => g.total) == TxModel.AmountSum(q) &&
            forall i :: 0 <= i < |b| ==> b[i] == Grouping.GroupOf(q, TxModel.CategoryKey, b[i].key)
  {
    var q := TxModel.OfKind(PeriodRows(rows, user, startDay, endDay), kind);
    var gs := Grouping.Groups(q, TxModel.CategoryKey);
    var b := Seqs.SortDesc(gs, GroupTotal);
    Grouping.GroupsPartition(q, TxModel.CategoryKey);
    Seqs.SumPermutation(b, gs, (g: CategoryGroup) => g.count);
    Seqs.SumPermutation(b, gs, (g: CategoryGroup) => g.total);
    forall i | 0 <= i < |b|
      ensures b[i] == Grouping.GroupOf(q, TxModel.CategoryKey, b[i].key)
    {
      assert b[i] in multiset(gs);
      var j :| 0 <= j < |gs| && gs[j] == b[i];
    }
  }

  /** `get_category_breakdown`: the loop over both types fills the dictionary
      that starts as `{'income': [], 'expense': []}`. */
  method CategoryBreakdown(rows: seq<TxRow>, user: int, startDay: int, endDay: int)
    returns (breakdown: map<string, seq<CategoryGroup>>)
    ensures breakdown.Keys == {"income", "expense"}
    ensures forall k :: k in breakdown ==> breakdown[k] == TypeBreakdown(rows, user, startDay, endDay, k)
  {
    breakdown := FillByType((kind: string) => TypeBreakdown(rows, user, startDay, endDay, kind));
  }

  /** The loop itself: the dictionary starts with both types empty, and each
      iteration stores one type's list. */
  method FillByType(breakdownOf: string -> seq<CategoryGroup>) returns (breakdown: map<string, seq<CategoryGroup>>)
    ensures breakdown.Keys == {"income", "expense"}
    ensures forall k :: k in breakdown ==> breakdown[k] == breakdownOf(k)
  {
    breakdown := map["income" := [], "expense" := []];
    for i := 0 to |Types|
      invariant i == 0 ==> breakdown == map["income" := [], "expense" := []]
      invariant i == 1 ==> breakdown == map["income" := breakdownOf("income"), "expense" := []]
      invariant i == 2 ==> breakdown == map["income" := breakdownOf("income"), "expense" := breakdownOf("expense")]
    {
      var kind := Types[i];
      breakdown := breakdown[kind := breakdownOf(kind)];
    }
  }

  // ---- saved reports ----

  /** A `Report` row as `save_report` creates it. */
  datatype SavedReport = SavedReport(user: int, title: string, reportType: string, startDate: string, endDate: string,
                                     totalTransactions: nat, totalIncome: int, totalExpenses: int, netAmount: int,
                                     spendingRatio: real, avgTransactionsPerDay: real)

  /** The row saved for a generated report: the summary and insight figures copied unchanged. */
  function SavedRow(user: int, title: string, r: Report): SavedReport
  {
    SavedReport(user, title, r.summary.reportType, r.summary.startDate, r.summary.endDate,
                r.summary.totalTransactions, r.summary.totalIncome, r.summary.totalExpenses, r.summary.netAmount,
                r.insights.spendingRatio, r.insights.avgTransactionsPerDay)
  }

  /** The table of saved reports. */
  class ReportTable {
    var saved: seq<SavedReport>

    constructor ()
      ensures saved == []
    {
      saved := [];
    }

    /** `save_report`: generate, then create one row; a failed generation raises and saves nothing. */
    method SaveReport(rows: seq<TxRow>, user: int, title: string, startDate: string, endDate: string,
                      reportType: string, parseDate: string -> Result<int, string>)
      returns (r: Result<SavedReport, string>)
      modifies this
      ensures var g := GenerateReport(rows, user, startDate, endDate, reportType, parseDate);
        (g.Err? ==> r == Err(g.error) && saved == old(saved)) &&
        (g.Ok? ==> r == Ok(SavedRow(user, title, g.value)) && saved == old(saved) + [r.value])
    {
      var g := GenerateReport(rows, user, startDate, endDate, reportType, parseDate);
      if g.Err? {
        return Err(g.error);
      }
      var row := SavedRow(user, title, g.value);
      saved := saved + [row];
      r := Ok(row);
    }
  }

  /** A saved row states the same net figure and health as the report it came from. */
  lemma SavedRowAgrees(rows: seq<TxRow>, user: int, title: string, startDate: string, endDate: string,
                       startDay: int, endDay: int, reportType: string)
    ensures var r := BuildReport(rows, user, startDate, endDate, startDay, endDay, reportType);
            var s := SavedRow(user, title, r);
            s.netAmount == s.totalIncome - s.totalExpenses &&
            s.totalTransactions == |ReportRows(rows, user, startDay, endDay, reportType)| &&
            (r.insights.financialHealth == "positive" <==> s.netAmount >= 0)
  {
  }
}
