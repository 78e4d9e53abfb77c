/** `TransactionSerializer` of the backend: the field validators, and which
    fields a client may write. A validator returns the value unchanged or raises;
    the raised exception is the `Err` side of the result. */
module TransactionSerializers {
  import opened Wrappers
  import Text
  import TxModel

  /** What a validator can raise. */
  datatype Raised = ValidationError(message: string) | AttributeError(message: string)

  /** `validate_amount`: amounts are in cents, and only positive ones pass. */
  function ValidateAmount(value: int): (r: Result<int, Raised>)
    ensures r.Ok? <==> value > 0
    ensures r.Ok? ==> r.value == value
    ensures r.Err? ==> r.error == ValidationError("Amount must be greater than zero.")
  {
    if value <= 0 then Err(ValidationError("Amount must be greater than zero.")) else Ok(value)
  }

  /** The bound `max_digits=10, decimal_places=2` puts on an amount in cents. */
  const DigitLimit := 10000000000

  /** The amount field the serializer derives from the model's
      `DecimalField(max_digits=10, decimal_places=2)` with its `MinValueValidator(0.01)`
      turned into `min_value`: the digit check runs while the text is converted, so
      it alone is reported, and only a converted value meets the minimum. The value
      is taken to carry its two decimal places. */
  function AmountField(value: int): (r: Result<int, Raised>)
    ensures r.Ok? <==> 1 <= value < DigitLimit
    ensures r.Ok? ==> r.value == value
    ensures value <= -DigitLimit || DigitLimit <= value ==>
              r == Err(ValidationError("Ensure that there are no more than 10 digits in total."))
    ensures -DigitLimit < value < 1 ==>
              r == Err(ValidationError("Ensure this value is greater than or equal to 0.01."))
  {
    if value <= -DigitLimit || DigitLimit <= value then
      Err(ValidationError("Ensure that there are no more than 10 digits in total."))
    else if value < 1 then Err(ValidationError("Ensure this value is greater than or equal to 0.01."))
    else Ok(value)
  }

  /** The amount as the serializer validates it: the field first, then `validate_amount`. */
  function SerializeAmount(value: int): Result<int, Raised> {
    match AmountField(value)
    case Err(e) => Err(e)
    case Ok(v) => ValidateAmount(v)
  }

  /** `validate_amount`'s own refusal is never reached through the serializer:
      every amount it would refuse is already refused by the field. */
  lemma AmountMessageUnreachable(value: int)
    ensures SerializeAmount(value) == AmountField(value)
    ensures SerializeAmount(value).Err? ==>
              SerializeAmount(value).error != ValidationError("Amount must be greater than zero.")
  {
  }

  /** `Transaction.CATEGORIES`, the legacy category values, in declaration order. */
  const LegacyCategories: seq<string> :=
    ["Food & Beverages", "Transportation", "Shopping", "Utilities", "Entertainment", "Health & Fitness", "Income"]

  function CategoryMessage(): string {
    "Invalid category. Choose from: " + Text.Join(LegacyCategories, ", ")
  }

  /** `validate_category` as written. `category` is a nullable foreign key, so the
      value it receives is the resolved `Category` instance (or `None`), never one
      of the seven strings it is compared with: every supplied category raises. */
  function ValidateCategoryAsWritten(value: Option<TxModel.CategoryRow>): (r: Result<Option<TxModel.CategoryRow>, Raised>)
    ensures r == Err(ValidationError(CategoryMessage()))
  {
    Err(ValidationError(CategoryMessage()))
  }

  /** Even a category the requester owns is refused. */
  lemma OwnCategoryRefused(c: TxModel.CategoryRow, user: int)
    requires c.user == user
    ensures ValidateCategoryAsWritten(Some(c)).Err?
    ensures ValidateCategoryAsWritten(Some(c)).error.message == CategoryMessage()
  {
  }

  /** `validate_category` checking that the category exists among the stored
      categories, as its docstring says, now that they are rows rather than a
      fixed list; a `null` category is allowed, as the column is nullable. */
  function ValidateCategory(value: Option<TxModel.CategoryRow>, categories: seq<TxModel.CategoryRow>)
    : (r: Result<Option<TxModel.CategoryRow>, Raised>)
    ensures r.Ok? <==> value.None? || value.value in categories
    ensures r.Ok? ==> r.value == value
    ensures r.Err? ==> r.error == ValidationError("Invalid category.")
  {
    if value.Some? && value.value !in categories then Err(ValidationError("Invalid category.")) else Ok(value)
  }

  /** With the corrected validator, every stored category is accepted. */
  lemma StoredCategoryAccepted(categories: seq<TxModel.CategoryRow>, i: nat)
    requires i < |categories|
    ensures ValidateCategory(Some(categories[i]), categories) == Ok(Some(categories[i]))
  {
  }

  /** Every legacy value can be found in the rejection message. */
  lemma CategoryMessageNamesEach(i: nat)
    requires i < |LegacyCategories|
    ensures Text.Contains(CategoryMessage(), LegacyCategories[i])
  {
    Text.JoinMentions(LegacyCategories, ", ", i);
    Text.ContainsAfterPrefix("Invalid category. Choose from: ", Text.Join(LegacyCategories, ", "), LegacyCategories[i]);
  }

  /** `Transaction.TYPE_CHOICES`. */
  const TypeChoices: seq<string> := ["income", "expense"]

  /** `validate_type` as written: it reads `Transaction.TRANSACTION_TYPES`, which the
      model does not define, so it raises before looking at the value. */
  function ValidateTypeAsWritten(value: string): (r: Result<string, Raised>)
    ensures r.Err? && r.error.AttributeError?
  {
    Err(AttributeError("type object 'Transaction' has no attribute 'TRANSACTION_TYPES'"))
  }

  /** Even a declared type is refused by the validator as written. */
  lemma DeclaredTypeRaises()
    ensures "income" in TypeChoices && ValidateTypeAsWritten("income").Err?
  {
  }

  /** `validate_type` reading `TYPE_CHOICES`, as the message and docstring intend. */
  function ValidateType(value: string): (r: Result<string, Raised>)
    ensures r.Ok? <==> value in TypeChoices
    ensures r.Ok? ==> r.value == value
    ensures r.Err? ==> r.error == ValidationError("Invalid type. Choose from: income, expense")
  {
    if value !in TypeChoices then
      assert TypeChoices[1..] == ["expense"];
      assert Text.Join(TypeChoices[1..], ", ") == "expense";
      assert Text.Join(TypeChoices, ", ") == "income" + ", " + "expense";
      assert "income" + ", " + "expense" == "income, expense";
      assert "Invalid type. Choose from: " + "income, expense" == "Invalid type. Choose from: income, expense";
      Err(ValidationError("Invalid type. Choose from: " + Text.Join(TypeChoices, ", ")))
    else Ok(value)
  }

  /** The fields a client sends; `id`, `created_at` and `updated_at` are read-only
      and so have no place here. */
  datatype TxInput = TxInput(amount: int, date: int, merchant: string, category: Option<TxModel.CategoryRow>,
                             kind: string, notes: Option<string>)

  /** `perform_create`: the new row belongs to the requesting user; its id and
      creation time come from the database, not from the client. */
  function Create(input: TxInput, user: int, newId: int, now: int): (t: TxModel.TxRow)
    ensures t.user == user && t.id == newId && t.createdAt == now
    ensures t.amount == input.amount && t.date == input.date && t.merchant == input.merchant &&
            t.category == input.category && t.kind == input.kind && t.notes == input.notes
  {
    TxModel.TxRow(newId, user, input.amount, input.date, input.merchant, input.category, input.kind,
                  input.notes, now)
  }

  /** `perform_update`: the writable fields are replaced, the owner is the requesting
      user, and the id and creation time stay as stored. */
  function Update(existing: TxModel.TxRow, input: TxInput, user: int): (t: TxModel.TxRow)
    ensures t.id == existing.id && t.createdAt == existing.createdAt && t.user == user
    ensures t == Create(input, user, existing.id, existing.createdAt)
  {
    existing.(user := user, amount := input.amount, date := input.date, merchant := input.merchant,
              category := input.category, kind := input.kind, notes := input.notes)
  }

  /** Saving the same input twice changes nothing more. */
  lemma UpdateIdempotent(existing: TxModel.TxRow, input: TxInput, user: int)
    ensures Update(Update(existing, input, user), input, user) == Update(existing, input, user)
  {
  }
}
