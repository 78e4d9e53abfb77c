/** `BudgetSerializer` of the backend: the date-order check, the owner set on
    create, and the category choices narrowed to the requesting user's own. */
module BudgetSerializer {
  import opened Wrappers
  import Seqs
  import Text
  import TxModel

  type CategoryRow = TxModel.CategoryRow

  /** The budget fields a client sends, already converted; `None` is a date that
      was not sent. `user` is what the data holds before `create` sets it. */
  datatype BudgetData = BudgetData(user: Option<int>, category: int, amount: int, period: string,
                                   startDate: Option<int>, endDate: Option<int>)

  const DateOrderMessage := "End date must be after start date"

  /** `validate`: the end must fall strictly after the start, checked only when
      both dates are present; valid data comes back unchanged. */
  function Validate(data: BudgetData): (r: Result<BudgetData, string>)
    ensures r.Err? <==> data.startDate.Some? && data.endDate.Some? && data.endDate.value <= data.startDate.value
    ensures r.Err? ==> r.error == DateOrderMessage
    ensures r.Ok? ==> r.value == data
  {
    if data.endDate.Some? && data.startDate.Some? && data.endDate.value <= data.startDate.value then
      Err(DateOrderMessage)
    else
      Ok(data)
  }

  /** A budget that starts and ends on the same day is refused. */
  lemma SameDayRefused(data: BudgetData, day: int)
    ensures Validate(data.(startDate := Some(day), endDate := Some(day))).Err?
  {
  }

  /** The requester as the serializer context gives it: no request at all, or the
      request's user, who may be anonymous. */
  datatype Requester = NoRequest | Anonymous | Authenticated(id: int)

  /** `__init__`: `Category.objects.none()` unless an authenticated user made the
      request, in which case `Category.objects.filter(user=user)`. */
  function CategoryChoices(requester: Requester, categories: seq<CategoryRow>): (r: seq<CategoryRow>)
    ensures requester.Authenticated? ==> forall i :: 0 <= i < |r| ==> r[i].user == requester.id
    ensures !requester.Authenticated? ==> r == []
    ensures Seqs.IsSubseq(r, categories)
  {
    if requester.Authenticated? then Seqs.Filter(categories, (c: CategoryRow) => c.user == requester.id)
    else []
  }

  /** `PrimaryKeyRelatedField` against those choices. */
  function CheckCategory(id: int, choices: seq<CategoryRow>): (r: Result<int, string>)
    ensures r.Ok? <==> exists i :: 0 <= i < |choices| && choices[i].id == id
    ensures r.Ok? ==> r.value == id
  {
    if exists i :: 0 <= i < |choices| && choices[i].id == id then Ok(id)
    else Err("Invalid pk \"" + Text.IntText(id) + "\" - object does not exist.")
  }

  /** A category is accepted iff it belongs to the authenticated requester; with no
      authenticated requester none is. */
  lemma CategoryScoped(requester: Requester, categories: seq<CategoryRow>, id: int)
    ensures CheckCategory(id, CategoryChoices(requester, categories)).Ok? <==>
            requester.Authenticated? && exists c :: c in categories && c.user == requester.id && c.id == id
  {
    var choices := CategoryChoices(requester, categories);
    if requester.Authenticated? {
      var p := (c: CategoryRow) => c.user == requester.id;
      if exists i :: 0 <= i < |choices| && choices[i].id == id {
        var i :| 0 <= i < |choices| && choices[i].id == id;
        Seqs.FilterMembership(categories, p, choices[i]);
      }
      if exists c :: c in categories && c.user == requester.id && c.id == id {
        var c :| c in categories && c.user == requester.id && c.id == id;
        Seqs.FilterMembership(categories, p, c);
        var i :| 0 <= i < |choices| && choices[i] == c;
      }
    }
  }

  /** `create`: `validated_data['user'] = self.context['request'].user`, whatever
      the data held; without a request in the context the lookup raises, and an
      anonymous requester cannot be assigned to the `user` foreign key, so
      building the instance raises. */
  function Create(data: BudgetData, requester: Requester): (r: Result<BudgetData, string>)
    ensures r.Err? <==> !requester.Authenticated?
    ensures requester.Authenticated? ==> r == Ok(data.(user := Some(requester.id)))
    ensures requester.NoRequest? ==> r == Err("KeyError: 'request'")
    ensures requester.Anonymous? ==> r == Err("ValueError: Budget.user must be a User instance")
  {
    match requester
    case NoRequest => Err("KeyError: 'request'")
    case Anonymous => Err("ValueError: Budget.user must be a User instance")
    case Authenticated(id) => Ok(data.(user := Some(id)))
  }

  /** The owner supplied by the client never survives `create`. */
  lemma CreateOverridesUser(data: BudgetData, id: int, supplied: int)
    ensures Create(data.(user := Some(supplied)), Authenticated(id)).value.user == Some(id)
  {
  }
}
