/** The Add Expense and Add Income pages of the legacy front end. Both keep a
    form and a list of recent entries; they differ only in the default category
    and the default description. */
module AddEntry {
  import opened Wrappers

  /** `{ id, amount, category, description, date }`; amount in cents. */
  datatype Entry = Entry(id: int, amount: int, category: string, description: string, date: string)

  datatype Form = Form(amount: string, category: string, description: string, date: string)

  /** What distinguishes the two pages. */
  datatype Config = Config(defaultCategory: string, defaultDescription: string)

  const ExpenseConfig := Config("food", "Expense")
  const IncomeConfig := Config("salary", "Income")

  /** The form a page starts from and returns to; `today` stands for today's ISO date. */
  function BlankForm(config: Config, today: string): Form {
    Form("", config.defaultCategory, "", today)
  }

  /** `formData.description || default`. */
  function Description(form: Form, config: Config): (d: string)
    ensures form.description != "" ==> d == form.description
    ensures form.description == "" ==> d == config.defaultDescription
    ensures d != "" <==> form.description != "" || config.defaultDescription != ""
  {
    if form.description != "" then form.description else config.defaultDescription
  }

  /** The entry a submit creates. `nowMs` is `Date.now()`, `parse` stands for
      `parseFloat`, `formatDate` for the `toLocaleDateString` rendering. */
  function NewEntry(form: Form, config: Config, nowMs: int, parse: string -> int,
                    formatDate: string -> string): (e: Entry)
    ensures e.id == nowMs && e.amount == parse(form.amount) && e.category == form.category
    ensures e.description == Description(form, config) && e.date == formatDate(form.date)
  {
    Entry(nowMs, parse(form.amount), form.category, Description(form, config), formatDate(form.date))
  }

  /** Neither page ever records an entry without a description. */
  lemma DescriptionNeverEmpty(form: Form)
    ensures Description(form, ExpenseConfig) != "" && Description(form, IncomeConfig) != ""
  {
  }

  /** One page's state. */
  class Recorder {
    const config: Config
    var form: Form
    var recent: seq<Entry>

    constructor (config: Config, today: string, recent: seq<Entry>)
      ensures this.config == config && form == BlankForm(config, today) && this.recent == recent
    {
      this.config := config;
      form := BlankForm(config, today);
      this.recent := recent;
    }

    /** `handleSubmit`: nothing happens unless amount and category are filled in;
        then the new entry goes in front of the others and the form is cleared. */
    method Submit(nowMs: int, today: string, parse: string -> int, formatDate: string -> string)
      modifies this
      ensures old(form).amount != "" && old(form).category != "" ==>
        recent == [NewEntry(old(form), config, nowMs, parse, formatDate)] + old(recent) &&
        form == BlankForm(config, today)
      ensures !(old(form).amount != "" && old(form).category != "") ==>
        recent == old(recent) && form == old(form)
    {
      if form.amount != "" && form.category != "" {
        var e := NewEntry(form, config, nowMs, parse, formatDate);
        recent := [e] + recent;
        form := BlankForm(config, today);
      }
    }
  }
}
