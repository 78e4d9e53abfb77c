/** The Categories page of the main front end: the search/type filter, the form
    reset, and the start and guard of an edit. */
module CategoriesPage {
  import opened Wrappers
  import opened Ledger
  import Seqs
  import Text

  datatype CategoryForm = CategoryForm(name: string, icon: string, kind: string)

  /** What `resetForm` restores: no name, the folder icon, type expense. */
  const EmptyForm := CategoryForm("", "\U{1F4C1}", "expense")

  /** Search looks at the name only; the type select may be `'all'`. */
  predicate Matches(c: Category, search: string, filterType: string) {
    Text.Contains(Text.Lower(c.name), Text.Lower(search)) &&
    (filterType == "all" || c.kind == filterType)
  }

  function Filtered(cats: seq<Category>, search: string, filterType: string): (r: seq<Category>)
    ensures Seqs.IsSubseq(r, cats)
    ensures forall i :: 0 <= i < |r| ==> Matches(r[i], search, filterType)
  {
    Seqs.Filter(cats, (c: Category) => Matches(c, search, filterType))
  }

  lemma FilteredMembership(cats: seq<Category>, search: string, filterType: string, c: Category)
    ensures c in Filtered(cats, search, filterType) <==> c in cats && Matches(c, search, filterType)
  {
    Seqs.FilterMembership(cats, (c: Category) => Matches(c, search, filterType), c);
  }

  /** An empty search with `'all'` shows every category. */
  lemma NoFilterShowsAll(cats: seq<Category>)
    ensures Filtered(cats, "", "all") == cats
  {
    forall i | 0 <= i < |cats|
      ensures Matches(cats[i], "", "all")
    {
      Text.ContainsEmpty(Text.Lower(cats[i].name));
    }
  }

  /** The request `handleEditCategory` sends: `update(id, formData)`. */
  datatype Update = Update(id: int, form: CategoryForm)

  /** The page's state (the list itself is refetched from the server). */
  class Page {
    var categories: seq<Category>
    var search: string
    var filterType: string
    var form: CategoryForm
    var editing: Option<Category>

    constructor (categories: seq<Category>)
      ensures this.categories == categories && search == "" && filterType == "all"
      ensures form == EmptyForm && editing == None
    {
      this.categories := categories;
      search := "";
      filterType := "all";
      form := EmptyForm;
      editing := None;
    }

    method ResetForm()
      modifies this
      ensures form == EmptyForm && editing == old(editing) && categories == old(categories)
      ensures search == old(search) && filterType == old(filterType)
    {
      form := EmptyForm;
    }

    /** `startEdit`: select the category and copy its name, icon and type. */
    method StartEdit(c: Category)
      modifies this
      ensures editing == Some(c) && form == CategoryForm(c.name, c.icon, c.kind)
      ensures categories == old(categories) && search == old(search) && filterType == old(filterType)
    {
      editing := Some(c);
      form := CategoryForm(c.name, c.icon, c.kind);
    }

    /** `handleEditCategory`. With no selection nothing is sent and nothing changes;
        otherwise the update is sent, and only if it succeeds (`ok`) is the list
        refetched and are the selection and the form cleared. `refetched` is what
        the refetch receives (`None` when it fails, which keeps the list). */
    method EditCategory(ok: bool, refetched: Option<seq<Category>>) returns (sent: Option<Update>)
      modifies this
      ensures old(editing).None? ==> sent == None && form == old(form) && editing == None
      ensures old(editing).Some? ==> sent == Some(Update(old(editing).value.id, old(form)))
      ensures old(editing).Some? && ok ==> editing == None && form == EmptyForm
      ensures old(editing).Some? && !ok ==> editing == old(editing) && form == old(form)
      ensures old(editing).Some? && ok && refetched.Some? ==> categories == refetched.value
      ensures old(editing).None? || !ok || refetched.None? ==> categories == old(categories)
      ensures search == old(search) && filterType == old(filterType)
    {
      if editing.None? {
        return None;
      }
      sent := Some(Update(editing.value.id, form));
      if ok {
        if refetched.Some? {
          categories := refetched.value;
        }
        editing := None;
        ResetForm();
      }
    }

    function Shown(): seq<Category>
      reads this
    {
      Filtered(categories, search, filterType)
    }
  }
}
