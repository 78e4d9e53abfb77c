/** `TransactionFilter` of the backend: the list endpoint's query-string filters.
    A parameter that is missing or empty applies no filter (`None` here). */
module TransactionFilters {
  import opened Wrappers
  import Seqs
  import Text
  import TxModel

  type TxRow = TxModel.TxRow

  /** The query parameters as sent. A parameter that is missing or empty is `None`. */
  datatype Query = Query(startDate: Option<string>, endDate: Option<string>,
                         minAmount: Option<string>, maxAmount: Option<string>,
                         category: Option<string>, kind: Option<string>,
                         date: Option<string>, merchant: Option<string>)

  /** The form fields' conversions: `DateField` to a day, `DecimalField` to cents,
      and the foreign key's integer conversion of `category`; `None` when the text
      does not convert. */
  datatype Parsers = Parsers(day: string -> Option<int>, cents: string -> Option<int>,
                             key: string -> Option<int>)

  /** The filter parameters, converted: days for dates, cents for amounts,
      a category key for `category`. */
  datatype Params = Params(startDate: Option<int>, endDate: Option<int>,
                           minAmount: Option<int>, maxAmount: Option<int>,
                           category: Option<int>, kind: Option<string>,
                           date: Option<int>, merchant: Option<string>)

  const NoParams := Params(None, None, None, None, None, None, None, None)

  const NoQuery := Query(None, None, None, None, None, None, None, None)

  /** `ChoiceFilter(choices=Transaction.TYPE_CHOICES)`. */
  const TypeChoices: seq<string> := ["income", "expense"]

  /** The outcome of listing: the filtered rows, a 400 naming the form fields
      that failed validation, or the 500 of an uncaught `ValueError`. */
  datatype Outcome = Listed(rows: seq<TxRow>) | FormError(fields: set<string>) | ServerError

  predicate Fails(text: Option<string>, parse: string -> Option<int>) {
    text.Some? && parse(text.value).None?
  }

  function Convert(text: Option<string>, parse: string -> Option<int>): Option<int> {
    if text.Some? then parse(text.value) else None
  }

  /** The fields whose form validation fails. `category` and `merchant` are
      `CharFilter`s, which accept any text. */
  function Invalid(q: Query, ps: Parsers): set<string> {
    (if Fails(q.startDate, ps.day) then {"start_date"} else {}) +
    (if Fails(q.endDate, ps.day) then {"end_date"} else {}) +
    (if Fails(q.minAmount, ps.cents) then {"min_amount"} else {}) +
    (if Fails(q.maxAmount, ps.cents) then {"max_amount"} else {}) +
    (if q.kind.Some? && q.kind.value !in TypeChoices then {"type"} else {}) +
    (if Fails(q.date, ps.day) then {"date"} else {})
  }

  /** The converted parameters of a query whose form is valid. */
  function Converted(q: Query, ps: Parsers): Params {
    Params(Convert(q.startDate, ps.day), Convert(q.endDate, ps.day),
           Convert(q.minAmount, ps.cents), Convert(q.maxAmount, ps.cents),
           Convert(q.category, ps.key), q.kind, Convert(q.date, ps.day), q.merchant)
  }

  /** One row against every supplied parameter. */
  predicate Keeps(p: Params, t: TxRow) {
    (p.startDate.Some? ==> t.date >= p.startDate.value) &&
    (p.endDate.Some? ==> t.date <= p.endDate.value) &&
    (p.minAmount.Some? ==> t.amount >= p.minAmount.value) &&
    (p.maxAmount.Some? ==> t.amount <= p.maxAmount.value) &&
    (p.category.Some? ==> TxModel.CategoryKey(t) == p.category) &&
    (p.kind.Some? ==> t.kind == p.kind.value) &&
    (p.date.Some? ==> t.date == p.date.value) &&
    (p.merchant.Some? ==> Text.Contains(Text.Lower(t.merchant), Text.Lower(p.merchant.value)))
  }

  /** The filter backend: the form is validated first (every failing field is
      reported), then the filters run, where a `category` that is not an integer
      makes the foreign-key lookup raise. */
  function Apply(rows: seq<TxRow>, q: Query, ps: Parsers): (r: Outcome)
    ensures r.FormError? <==> Invalid(q, ps) != {}
    ensures r.FormError? ==>
              ("start_date" in r.fields <==> Fails(q.startDate, ps.day)) &&
              ("end_date" in r.fields <==> Fails(q.endDate, ps.day)) &&
              ("min_amount" in r.fields <==> Fails(q.minAmount, ps.cents)) &&
              ("max_amount" in r.fields <==> Fails(q.maxAmount, ps.cents)) &&
              ("type" in r.fields <==> q.kind.Some? && q.kind.value !in TypeChoices) &&
              ("date" in r.fields <==> Fails(q.date, ps.day)) &&
              "category" !in r.fields && "merchant" !in r.fields
    ensures r.ServerError? <==> Invalid(q, ps) == {} && Fails(q.category, ps.key)
    ensures r.Listed? ==>
              Seqs.IsSubseq(r.rows, rows) &&
              forall i :: 0 <= i < |r.rows| ==> Keeps(Converted(q, ps), r.rows[i])
  {
    if Invalid(q, ps) != {} then FormError(Invalid(q, ps))
    else if Fails(q.category, ps.key) then ServerError
    else Listed(Seqs.Filter(rows, (t: TxRow) => Keeps(Converted(q, ps), t)))
  }

  /** A row is listed iff it meets every supplied bound: dates and amounts inclusive
      at both ends, category and type exact, merchant a case-insensitive substring. */
  lemma ApplyMembership(rows: seq<TxRow>, q: Query, ps: Parsers, t: TxRow)
    requires Invalid(q, ps) == {} && !Fails(q.category, ps.key)
    ensures Apply(rows, q, ps).Listed?
    ensures var p := Converted(q, ps);
            t in Apply(rows, q, ps).rows <==>
            t in rows &&
            (p.startDate.Some? ==> p.startDate.value <= t.date) &&
            (p.endDate.Some? ==> t.date <= p.endDate.value) &&
            (p.minAmount.Some? ==> p.minAmount.value <= t.amount) &&
            (p.maxAmount.Some? ==> t.amount <= p.maxAmount.value) &&
            (p.category.Some? ==> t.category.Some? && t.category.value.id == p.category.value) &&
            (p.kind.Some? ==> t.kind == p.kind.value) &&
            (p.date.Some? ==> t.date == p.date.value) &&
            (p.merchant.Some? ==> Text.Contains(Text.Lower(t.merchant), Text.Lower(p.merchant.value)))
  {
    Seqs.FilterMembership(rows, (t: TxRow) => Keeps(Converted(q, ps), t), t);
  }

  /** A supplied parameter converts to a bound; the form accepts it iff it converts. */
  lemma SuppliedBoundsConvert(q: Query, ps: Parsers)
    requires Invalid(q, ps) == {}
    ensures q.startDate.Some? ==> Converted(q, ps).startDate.Some?
    ensures q.endDate.Some? ==> Converted(q, ps).endDate.Some?
    ensures q.minAmount.Some? ==> Converted(q, ps).minAmount.Some?
    ensures q.maxAmount.Some? ==> Converted(q, ps).maxAmount.Some?
    ensures q.date.Some? ==> Converted(q, ps).date.Some?
  {
    assert !Fails(q.startDate, ps.day) by { assert "start_date" !in Invalid(q, ps); }
    assert !Fails(q.endDate, ps.day) by { assert "end_date" !in Invalid(q, ps); }
    assert !Fails(q.minAmount, ps.cents) by { assert "min_amount" !in Invalid(q, ps); }
    assert !Fails(q.maxAmount, ps.cents) by { assert "max_amount" !in Invalid(q, ps); }
    assert !Fails(q.date, ps.day) by { assert "date" !in Invalid(q, ps); }
  }

  /** With no parameters every row is listed, in its order. */
  lemma NoParamsKeepsAll(rows: seq<TxRow>, ps: Parsers)
    ensures Apply(rows, NoQuery, ps) == Listed(rows)
  {
    assert Converted(NoQuery, ps) == NoParams;
  }

  /** An empty merchant text matches every merchant. */
  lemma EmptyMerchantMatchesAll(t: TxRow)
    ensures Keeps(NoParams.(merchant := Some("")), t)
  {
    Text.ContainsEmpty(Text.Lower(t.merchant));
  }
}
