/** The backend's report endpoints: the parameter checks shared by generate,
    export and breakdown, the error responses, and the CSV export written row by
    row through Python's `csv` writer after a byte-order mark. */
module ReportViews {
  import opened Wrappers
  import Seqs
  import Text
  import TxModel
  import PythonCsv
  import ReportService

  type TxRow = TxModel.TxRow

  const DatesRequired := "start_date and end_date are required"

  /** `request.query_params.get(key)`. */
  function Param(query: map<string, string>, key: string): Option<string> {
    if key in query then Some(query[key]) else None
  }

  /** Python truthiness of a query parameter: present and not empty. */
  predicate Supplied(v: Option<string>) {
    v.Some? && v.value != ""
  }

  /** `query_params.get('type', 'all')`: only a missing parameter falls back. */
  function ReportType(query: map<string, string>): string {
    Param(query, "type").GetOr("all")
  }

  datatype Body =
    | ErrorBody(error: string)
    | ReportBody(report: ReportService.Report)
    | BreakdownBody(breakdown: map<string, seq<ReportService.CategoryGroup>>)

  datatype Response =
    | Json(status: int, body: Body)
    /** `text/csv` with `Content-Disposition: attachment; filename="<fileName>"`. */
    | CsvAttachment(fileName: string, content: string)
    /** An exception no handler catches; the framework answers 500. */
    | Unhandled(message: string)

  /** The response to a request without both dates. */
  const MissingDates := Json(400, ErrorBody(DatesRequired))

  /** `ReportGenerateView.get`. */
  function GenerateView(query: map<string, string>, rows: seq<TxRow>, user: int,
                        parseDate: string -> Result<int, string>): (r: Response)
    // Both dates are required before anything is queried.
    ensures !Supplied(Param(query, "start_date")) || !Supplied(Param(query, "end_date")) ==> r == MissingDates
    ensures Supplied(Param(query, "start_date")) && Supplied(Param(query, "end_date")) ==>
      var g := ReportService.GenerateReport(rows, user, query["start_date"], query["end_date"], ReportType(query), parseDate);
      // Any exception while generating becomes a 500 carrying its text.
      (g.Err? ==> r == Json(500, ErrorBody(g.error))) &&
      (g.Ok? ==> r == Json(200, ReportBody(g.value)))
  {
    var startDate := Param(query, "start_date");
    var endDate := Param(query, "end_date");
    if !Supplied(startDate) || !Supplied(endDate) then MissingDates
    else
      match ReportService.GenerateReport(rows, user, startDate.value, endDate.value, ReportType(query), parseDate)
      case Err(e) => Json(500, ErrorBody(e))
      case Ok(report) => Json(200, ReportBody(report))
  }

  /** A missing `type` parameter gives the same response as `type=all`. */
  lemma TypeDefaultsToAll(query: map<string, string>, rows: seq<TxRow>, user: int,
                          parseDate: string -> Result<int, string>)
    requires "type" !in query
    ensures GenerateView(query, rows, user, parseDate) == GenerateView(query["type" := "all"], rows, user, parseDate)
  {
    var q2 := query["type" := "all"];
    assert Param(q2, "start_date") == Param(query, "start_date");
    assert Param(q2, "end_date") == Param(query, "end_date");
  }

  /** `ReportCategoryBreakdownView.get`. The dates are not guarded: a date that
      does not convert raises out of the view. */
  method BreakdownView(query: map<string, string>, rows: seq<TxRow>, user: int,
                       parseDate: string -> Result<int, string>) returns (r: Response)
    ensures !Supplied(Param(query, "start_date")) || !Supplied(Param(query, "end_date")) ==> r == MissingDates
    ensures Supplied(Param(query, "start_date")) && Supplied(Param(query, "end_date")) ==>
      var s := parseDate(query["start_date"]);
      var e := parseDate(query["end_date"]);
      (s.Err? ==> r == Unhandled(s.error)) &&
      (s.Ok? && e.Err? ==> r == Unhandled(e.error)) &&
      (s.Ok? && e.Ok? ==>
         (r.Json? && r.status == 200 && r.body.BreakdownBody? &&
          r.body.breakdown.Keys == {"income", "expense"} &&
          forall k :: k in r.body.breakdown ==>
            r.body.breakdown[k] == ReportService.TypeBreakdown(rows, user, s.value, e.value, k)))
  {
    var startDate := Param(query, "start_date");
    var endDate := Param(query, "end_date");
    if !Supplied(startDate) || !Supplied(endDate) {
      return MissingDates;
    }
    var s := parseDate(startDate.value);
    if s.Err? {
      return Unhandled(s.error);
    }
    var e := parseDate(endDate.value);
    if e.Err? {
      return Unhandled(e.error);
    }
    var breakdown := ReportService.CategoryBreakdown(rows, user, s.value, e.value);
    r := Json(200, BreakdownBody(breakdown));
  }

  // ---- CSV export ----

  const Bom := "\U{FEFF}"
  const Header: seq<string> := ["Date", "Merchant", "Category", "Type", "Amount", "Notes"]

  /** The export's queryset: the report's rows, newest date first. */
  function ExportRows(rows: seq<TxRow>, user: int, startDay: int, endDay: int, reportType: string): (r: seq<TxRow>)
    ensures multiset(r) == multiset(ReportService.ReportRows(rows, user, startDay, endDay, reportType))
    ensures Seqs.SortedDesc(r, TxModel.ByDate)
  {
    Seqs.SortDesc(ReportService.ReportRows(rows, user, startDay, endDay, reportType), TxModel.ByDate)
  }

  /** The six fields of one transaction. `dateText` stands for `str(date)`; the
      category is written as its `str()` and an absent one as the empty field; the
      amount as `str(Decimal)`; absent notes as the empty field. */
  function Cells(t: TxRow, dateText: int -> string): (cells: seq<string>)
    ensures |cells| == |Header|
    ensures cells[0] == dateText(t.date) && cells[1] == t.merchant && cells[3] == t.kind
    ensures cells[2] == (if t.category.Some? then TxModel.CategoryText(t.category.value) else "")
    ensures cells[4] == Text.CentsText(t.amount) && cells[5] == t.notes.GetOr("")
  {
    [dateText(t.date), t.merchant,
     if t.category.Some? then TxModel.CategoryText(t.category.value) else "",
     t.kind, Text.CentsText(t.amount), t.notes.GetOr("")]
  }

  function DataRows(txs: seq<TxRow>, dateText: int -> string): (r: seq<seq<string>>)
    ensures |r| == |txs| && forall i :: 0 <= i < |r| ==> r[i] == Cells(txs[i], dateText)
    decreases |txs|
  {
    if |txs| == 0 then [] else [Cells(txs[0], dateText)] + DataRows(txs[1..], dateText)
  }

  function FileName(startDate: string, endDate: string): (r: string)
    ensures |r| == |startDate| + |endDate| + 24
    ensures r[..16] == "fintrack-report-" && r[|r| - 4..] == ".csv"
    ensures r[16..16 + |startDate|] == startDate && r[|r| - 4 - |endDate|..|r| - 4] == endDate
  {
    "fintrack-report-" + startDate + "-to-" + endDate + ".csv"
  }

  lemma WriteRowsAppend(rows: seq<seq<string>>, row: seq<string>)
    ensures PythonCsv.WriteRows(rows + [row]) == PythonCsv.WriteRows(rows) + PythonCsv.WriteRow(row)
  {
    Seqs.ConcatSnoc(rows, row, PythonCsv.WriteRow);
  }

  /** `ReportExportCSVView.get`: the BOM, the header row, then one `writerow` per
      transaction of the queryset, in its order. */
  method ExportView(query: map<string, string>, rows: seq<TxRow>, user: int,
                    parseDate: string -> Result<int, string>, dateText: int -> string) returns (r: Response)
    ensures !Supplied(Param(query, "start_date")) || !Supplied(Param(query, "end_date")) ==> r == MissingDates
    ensures Supplied(Param(query, "start_date")) && Supplied(Param(query, "end_date")) ==>
      var s := parseDate(query["start_date"]);
      var e := parseDate(query["end_date"]);
      (s.Err? ==> r == Unhandled(s.error)) &&
      (s.Ok? && e.Err? ==> r == Unhandled(e.error)) &&
      (s.Ok? && e.Ok? ==>
         r == CsvAttachment(FileName(query["start_date"], query["end_date"]),
                            Bom + PythonCsv.WriteRows([Header] +
                              DataRows(ExportRows(rows, user, s.value, e.value, ReportType(query)), dateText))))
  {
    var startDate := Param(query, "start_date");
    var endDate := Param(query, "end_date");
    if !Supplied(startDate) || !Supplied(endDate) {
      return MissingDates;
    }
    var s := parseDate(startDate.value);
    if s.Err? {
      return Unhandled(s.error);
    }
    var e := parseDate(endDate.value);
    if e.Err? {
      return Unhandled(e.error);
    }
    var queryset := ExportRows(rows, user, s.value, e.value, ReportType(query));
    var content := WriteCsv(queryset, dateText);
    r := CsvAttachment(FileName(startDate.value, endDate.value), content);
  }

  /** The response body: the BOM, the header row, then one `writerow` per
      transaction, in the queryset's order. */
  method WriteCsv(queryset: seq<TxRow>, dateText: int -> string) returns (content: string)
    ensures content == Bom + PythonCsv.WriteRows([Header] + DataRows(queryset, dateText))
  {
    var body := PythonCsv.WriteRow(Header);
    assert [Header] + DataRows(queryset[..0], dateText) == [] + [Header];
    WriteRowsAppend([], Header);
    for i := 0 to |queryset|
      invariant body == PythonCsv.WriteRows([Header] + DataRows(queryset[..i], dateText))
    {
      WrittenStep(queryset, i, dateText);
      body := body + PythonCsv.WriteRow(Cells(queryset[i], dateText));
    }
    assert queryset[..|queryset|] == queryset;
    content := Bom + body;
  }

  /** Writing one more row appends its text to what was written. */
  lemma WrittenStep(txs: seq<TxRow>, i: nat, dateText: int -> string)
    requires i < |txs|
    ensures PythonCsv.WriteRows([Header] + DataRows(txs[..i + 1], dateText))
         == PythonCsv.WriteRows([Header] + DataRows(txs[..i], dateText)) + PythonCsv.WriteRow(Cells(txs[i], dateText))
  {
    var before := [Header] + DataRows(txs[..i], dateText);
    DataRowsSnoc(txs, i, dateText);
    assert [Header] + DataRows(txs[..i + 1], dateText) == before + [Cells(txs[i], dateText)];
    WriteRowsAppend(before, Cells(txs[i], dateText));
  }

  lemma DataRowsSnoc(txs: seq<TxRow>, i: nat, dateText: int -> string)
    requires i < |txs|
    ensures DataRows(txs[..i + 1], dateText) == DataRows(txs[..i], dateText) + [Cells(txs[i], dateText)]
  {
    var a := DataRows(txs[..i + 1], dateText);
    var b := DataRows(txs[..i], dateText) + [Cells(txs[i], dateText)];
    assert |a| == |b|;
    forall k | 0 <= k < |a| ensures a[k] == b[k] {
      assert txs[..i + 1][k] == txs[k];
      if k < i { assert txs[..i][k] == txs[k]; }
    }
  }

  /** Read back with the same dialect, the exported file (after its BOM) is the
      header row followed by exactly one row per matching transaction, newest
      first, with every field as it was, quotes and commas included. */
  lemma ExportReadsBack(txs: seq<TxRow>, dateText: int -> string)
    ensures var content := Bom + PythonCsv.WriteRows([Header] + DataRows(txs, dateText));
            var read := PythonCsv.ReadRows(content[1..]);
            |read| == |txs| + 1 && read[0] == Header &&
            forall i :: 0 <= i < |txs| ==> read[i + 1] == Cells(txs[i], dateText)
  {
    var all := [Header] + DataRows(txs, dateText);
    var content := Bom + PythonCsv.WriteRows(all);
    assert content[1..] == PythonCsv.WriteRows(all);
    PythonCsv.ReadWrittenRows(all);
  }

  /** The exported rows are the generated report's transactions, in the same order. */
  lemma ExportMatchesReport(query: map<string, string>, rows: seq<TxRow>, user: int,
                            parseDate: string -> Result<int, string>, startDay: int, endDay: int)
    requires Supplied(Param(query, "start_date")) && Supplied(Param(query, "end_date"))
    requires parseDate(query["start_date"]) == Ok(startDay) && parseDate(query["end_date"]) == Ok(endDay)
    ensures var g := ReportService.GenerateReport(rows, user, query["start_date"], query["end_date"], ReportType(query), parseDate);
            g.Ok? && g.value.transactions == ExportRows(rows, user, startDay, endDay, ReportType(query))
  {
  }
}
