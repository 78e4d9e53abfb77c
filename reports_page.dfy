/** The Reports page of the main front end: a date-range and type filter over
    the transactions, income/expense/net totals, and the CSV export. */
module ReportsPage {
  import opened Wrappers
  import opened Ledger
  import Text
  import Seqs

  /** Inclusive day range and type. `dayOf` stands for `new Date(..)`, with
      `None` for an Invalid Date (an emptied date input, say): every comparison
      with it is false, so nothing is in range. */
  predicate InReport(t: Txn, startDate: string, endDate: string, reportType: string,
                     dayOf: string -> Option<int>) {
    dayOf(t.date).Some? && dayOf(startDate).Some? && dayOf(endDate).Some? &&
    dayOf(startDate).value <= dayOf(t.date).value <= dayOf(endDate).value &&
    (reportType == "all" || t.kind == reportType)
  }

  /** `filteredTransactions`. */
  function Filtered(txns: seq<Txn>, startDate: string, endDate: string, reportType: string,
                    dayOf: string -> Option<int>): (r: seq<Txn>)
    ensures forall i :: 0 <= i < |r| ==> InReport(r[i], startDate, endDate, reportType, dayOf)
    ensures Seqs.IsSubseq(r, txns)
  {
    Seqs.Filter(txns, (t: Txn) => InReport(t, startDate, endDate, reportType, dayOf))
  }

  /** A transaction is reported iff it is in the list and in range and of the chosen type. */
  lemma FilteredMembership(txns: seq<Txn>, startDate: string, endDate: string,
                           reportType: string, dayOf: string -> Option<int>, t: Txn)
    ensures t in Filtered(txns, startDate, endDate, reportType, dayOf) <==>
            t in txns && InReport(t, startDate, endDate, reportType, dayOf)
  {
    Seqs.FilterMembership(txns, (t: Txn) => InReport(t, startDate, endDate, reportType, dayOf), t);
  }

  /** A start or end date that is not a date reports nothing. */
  lemma InvalidBoundReportsNothing(txns: seq<Txn>, startDate: string, endDate: string,
                                   reportType: string, dayOf: string -> Option<int>)
    requires dayOf(startDate).None? || dayOf(endDate).None?
    ensures Filtered(txns, startDate, endDate, reportType, dayOf) == []
  {
  }

  /** `totalIncome`, `totalExpenses` and `netAmount`, both totals over the filtered list. */
  function Totals(txns: seq<Txn>, startDate: string, endDate: string, reportType: string,
                  dayOf: string -> Option<int>): (r: (int, int, int))
    ensures r.2 == r.0 - r.1
  {
    var f := Filtered(txns, startDate, endDate, reportType, dayOf);
    var income := Total(f, "income");
    var expenses := Total(f, "expense");
    (income, expenses, income - expenses)
  }

  /** What one transaction adds to a report's total of `kind`. */
  function Reported(t: Txn, kind: string, startDate: string, endDate: string, reportType: string,
                    dayOf: string -> Option<int>): int {
    if InReport(t, startDate, endDate, reportType, dayOf) && t.kind == kind then t.amount else 0
  }

  /** A report's total of a type read as one pass over all transactions. */
  lemma ReportTotalIsScan(txns: seq<Txn>, kind: string, startDate: string, endDate: string,
                          reportType: string, dayOf: string -> Option<int>)
    ensures Total(Filtered(txns, startDate, endDate, reportType, dayOf), kind) ==
            Seqs.Sum(txns, (t: Txn) => Reported(t, kind, startDate, endDate, reportType, dayOf))
  {
    var p := (t: Txn) => InReport(t, startDate, endDate, reportType, dayOf);
    var g := (t: Txn) => if t.kind == kind then t.amount else 0;
    var f := Filtered(txns, startDate, endDate, reportType, dayOf);
    assert f == Seqs.Filter(txns, p);
    TotalIsScan(f, kind);
    assert TotalByScan(f, kind) == Seqs.Sum(f, g);
    Seqs.SumFilter(txns, p, g, (t: Txn) => Reported(t, kind, startDate, endDate, reportType, dayOf));
  }

  /** Income and expenses are the sums of the amounts of the transactions in the
      report of each type, and the net is their difference. */
  lemma TotalsAreSums(txns: seq<Txn>, startDate: string, endDate: string, reportType: string,
                      dayOf: string -> Option<int>)
    ensures var r := Totals(txns, startDate, endDate, reportType, dayOf);
            r.0 == Seqs.Sum(txns, (t: Txn) => Reported(t, "income", startDate, endDate, reportType, dayOf)) &&
            r.1 == Seqs.Sum(txns, (t: Txn) => Reported(t, "expense", startDate, endDate, reportType, dayOf))
  {
    ReportTotalIsScan(txns, "income", startDate, endDate, reportType, dayOf);
    ReportTotalIsScan(txns, "expense", startDate, endDate, reportType, dayOf);
  }

  /** The type filter applies before summing: a one-type report has a zero
      total for the other type, and its net is its own total (or its negation). */
  lemma OneTypeTotals(txns: seq<Txn>, startDate: string, endDate: string, reportType: string,
                      dayOf: string -> Option<int>)
    ensures var r := Totals(txns, startDate, endDate, reportType, dayOf);
            (reportType == "income" ==> r.1 == 0 && r.2 == r.0) &&
            (reportType == "expense" ==> r.0 == 0 && r.2 == -r.1)
  {
    var f := Filtered(txns, startDate, endDate, reportType, dayOf);
    if reportType == "income" {
      TotalOfAbsentKind(f, "expense");
    } else if reportType == "expense" {
      TotalOfAbsentKind(f, "income");
    }
  }

  const HeaderCells := ["Date", "Merchant", "Category", "Type", "Amount", "Notes"]

  /** `headers.join(',')`. */
  function HeaderLine(): (h: string)
    ensures h == "Date,Merchant,Category,Type,Amount,Notes"
  {
    Text.Join(HeaderCells, ",")
  }

  lemma HeaderAvoidsLineBreak()
    ensures '\n' !in HeaderLine()
  {
    forall k | 0 <= k < |HeaderCells|
      ensures '\n' !in HeaderCells[k]
    {
    }
    Text.JoinAvoids(HeaderCells, ",", '\n');
  }

  /** `"${cell}"`: wrapped in quotes, with nothing inside escaped. */
  function Quote(cell: string): string {
    "\"" + cell + "\""
  }

  /** An embedded quote is kept as it is: quoting adds exactly the two outer quotes. */
  lemma QuoteAddsTwoQuotes(cell: string)
    ensures multiset(Quote(cell))['"'] == multiset(cell)['"'] + 2
    ensures multiset(Quote(cell)) == multiset(cell) + multiset{'"', '"'}
  {
  }

  /** The six cells of one transaction; `amountText` stands for `amount.toString()`,
      and missing notes become the empty cell. */
  function Cells(t: Txn, amountText: int -> string): (cells: seq<string>)
    ensures |cells| == |HeaderCells|
    ensures cells[0] == t.date && cells[1] == t.merchant && cells[2] == t.category && cells[3] == t.kind
    ensures cells[4] == amountText(t.amount) && cells[5] == t.notes.GetOr("")
  {
    [t.date, t.merchant, t.category, t.kind, amountText(t.amount), t.notes.GetOr("")]
  }

  function QuoteAll(cells: seq<string>): (r: seq<string>)
    ensures |r| == |cells| && forall i :: 0 <= i < |r| ==> r[i] == Quote(cells[i])
    decreases |cells|
  {
    if |cells| == 0 then [] else [Quote(cells[0])] + QuoteAll(cells[1..])
  }

  function Row(t: Txn, amountText: int -> string): string {
    Text.Join(QuoteAll(Cells(t, amountText)), ",")
  }

  function Rows(txns: seq<Txn>, amountText: int -> string): (r: seq<string>)
    ensures |r| == |txns| && forall i :: 0 <= i < |r| ==> r[i] == Row(txns[i], amountText)
    decreases |txns|
  {
    if |txns| == 0 then [] else [Row(txns[0], amountText)] + Rows(txns[1..], amountText)
  }

  /** `csvContent`: the header line and one line per transaction, joined by `'\n'`. */
  function CsvContent(txns: seq<Txn>, amountText: int -> string): string {
    Text.Join([HeaderLine()] + Rows(txns, amountText), "\n")
  }

  predicate NoLineBreak(t: Txn, amountText: int -> string) {
    forall i :: 0 <= i < |Cells(t, amountText)| ==> '\n' !in Cells(t, amountText)[i]
  }

  lemma RowAvoidsLineBreak(t: Txn, amountText: int -> string)
    requires NoLineBreak(t, amountText)
    ensures '\n' !in Row(t, amountText)
  {
    var cells := Cells(t, amountText);
    var quoted := QuoteAll(cells);
    forall k | 0 <= k < |quoted|
      ensures '\n' !in quoted[k]
    {
      assert quoted[k] == "\"" + cells[k] + "\"";
      assert '\n' !in cells[k];
    }
    Text.JoinAvoids(quoted, ",", '\n');
  }

  /** When no cell holds a line break, the content splits back into the header
      line followed by exactly one line per transaction, in order. */
  lemma CsvLines(txns: seq<Txn>, amountText: int -> string)
    requires forall i :: 0 <= i < |txns| ==> NoLineBreak(txns[i], amountText)
    ensures var lines := Text.Split(CsvContent(txns, amountText), '\n');
            |lines| == |txns| + 1 && lines[0] == "Date,Merchant,Category,Type,Amount,Notes" &&
            forall i :: 0 <= i < |txns| ==> lines[i + 1] == Row(txns[i], amountText)
  {
    var rows := Rows(txns, amountText);
    var header := HeaderLine();
    HeaderAvoidsLineBreak();
    var parts := [header] + rows;
    forall i | 0 <= i < |rows|
      ensures '\n' !in rows[i]
    {
      RowAvoidsLineBreak(txns[i], amountText);
    }
    assert forall i :: 0 <= i < |parts| ==> '\n' !in parts[i];
    Text.SplitJoin(parts, '\n');
    assert Text.Split(CsvContent(txns, amountText), '\n') == parts;
  }

  /** `fintrack-report-<start>-to-<end>.csv`. */
  function FileName(startDate: string, endDate: string): (r: string)
    ensures |r| == |startDate| + |endDate| + 24
    ensures r[..16] == "fintrack-report-" && r[|r| - 4..] == ".csv"
    ensures r[16..16 + |startDate|] == startDate && r[|r| - 4 - |endDate|..|r| - 4] == endDate
  {
    "fintrack-report-" + startDate + "-to-" + endDate + ".csv"
  }

  datatype Download = Download(fileName: string, content: string)

  /** The page's state. */
  class Page {
    const transactions: seq<Txn>
    var startDate: string
    var endDate: string
    var reportType: string
    var reportGenerated: bool

    constructor (transactions: seq<Txn>, startDate: string, endDate: string)
      ensures this.transactions == transactions && this.startDate == startDate && this.endDate == endDate
      ensures reportType == "all" && !reportGenerated
    {
      this.transactions := transactions;
      this.startDate := startDate;
      this.endDate := endDate;
      reportType := "all";
      reportGenerated := false;
    }

    method GenerateReport()
      modifies this
      ensures reportGenerated
      ensures startDate == old(startDate) && endDate == old(endDate) && reportType == old(reportType)
    {
      reportGenerated := true;
    }

    /** The Export CSV button: disabled (no download) until a report is generated. */
    method ExportCsv(dayOf: string -> Option<int>, amountText: int -> string) returns (d: Option<Download>)
      ensures !reportGenerated ==> d == None
      ensures reportGenerated ==>
        d == Some(Download(FileName(startDate, endDate),
                           CsvContent(Filtered(transactions, startDate, endDate, reportType, dayOf), amountText)))
    {
      if !reportGenerated {
        return None;
      }
      var filtered := Filtered(transactions, startDate, endDate, reportType, dayOf);
      d := Some(Download(FileName(startDate, endDate), CsvContent(filtered, amountText)));
    }
  }
}
