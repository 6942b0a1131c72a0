/** The modal that adds or edits an expense from the transaction table. */
module ExpenseModal {
  import opened Wrappers
  import opened Js
  import opened Seqs
  import opened Text
  import opened Records
  import opened Forms
  import opened TransactionList

  /** The category options as the source lists them. */
  const ExpenseCategoryList: seq<string> := [
    "Housing", "Transportation", "Food", "Utilities", "Healthcare",
    "Personal Care", "Entertainment", "Education", "Childcare", "Debt Payments",
    "Savings/Investments", "Gifts/Donations", "Travel", "Shopping", "Groceries",
    "Dining Out", "Subscriptions", "Insurance", "Taxes", "Other"]

  /** The options after `.sort()`. */
  const ExpenseCategories: seq<string> := Sort(ExpenseCategoryList)

  /** The options are the twenty categories of the source list, in ascending order. */
  lemma ExpenseCategoriesSorted()
    ensures |ExpenseCategories| == 20
    ensures multiset(ExpenseCategories) == multiset(ExpenseCategoryList)
    ensures StrictlySorted(ExpenseCategories)
  {
    assert Distinct(ExpenseCategoryList);
  }

  /** `Boolean(expense && expense.id)`. */
  predicate IsEditMode(expense: Option<Tx>) {
    expense.Some? && Truthy(expense.value.id)
  }

  /** `expense.id`, read only in edit mode. */
  function ExpenseId(expense: Option<Tx>): Value {
    if expense.Some? then expense.value.id else Undefined
  }

  /** The form; `timestamp` holds the date text the date input shows. */
  datatype ExpenseForm = ExpenseForm(expense_category: Value, monthly_amount: Value, description: Value, timestamp: Value)

  /** An empty form dated `today`. */
  function EmptyForm(today: string): ExpenseForm {
    ExpenseForm(Str(""), Str(""), Str(""), Str(today))
  }

  /**
   * The form filled from a row: the category and description or '', and the amount as
   * the text of its absolute value, '' when it is falsy. `date` is the date text the
   * row's date converts to.
   */
  function FormOf(eng: Engine, tx: Tx, date: string): (f: ExpenseForm)
    ensures f.expense_category == Str(TextOr(tx.category, ""))
    ensures f.description == OrEmpty(tx.description)
    ensures Truthy(Number(tx.amount)) ==> f.monthly_amount == Str(ToString(eng, Number(Abs(tx.amount))))
    ensures !Truthy(Number(tx.amount)) ==> f.monthly_amount == Str("")
  {
    ExpenseForm(
      Str(TextOr(tx.category, "")),
      if Truthy(Number(tx.amount)) then Str(ToString(eng, Number(Abs(tx.amount)))) else Str(""),
      OrEmpty(tx.description),
      Str(date))
  }

  /** The body of the save call: the form with the amount parsed, 0 when unparsable or zero. */
  datatype ExpensePayload = ExpensePayload(expense_category: Value, monthly_amount: real, description: Value, timestamp: Value)

  function PayloadOf(eng: Engine, form: ExpenseForm): (p: ExpensePayload)
    ensures p.monthly_amount == OrZero(ParseFloat(eng, form.monthly_amount))
    ensures p.expense_category == form.expense_category && p.description == form.description
    ensures p.timestamp == form.timestamp
  {
    ExpensePayload(form.expense_category, OrZero(ParseFloat(eng, form.monthly_amount)), form.description, form.timestamp)
  }

  /**
   * Editing a row and saving it unchanged sends the absolute amount back as a positive
   * number (the table shows it negated), given that the engine reads the number it
   * prints back as itself.
   */
  lemma EditedAmountIsPositive(eng: Engine, tx: Tx, date: string)
    requires tx.amount.Num? && tx.amount.value != 0.0
    requires eng.parseFloat(eng.numberToString(Abs(tx.amount).value)) == Abs(tx.amount)
    ensures PayloadOf(eng, FormOf(eng, tx, date)).monthly_amount == AbsReal(tx.amount.value)
    ensures PayloadOf(eng, FormOf(eng, tx, date)).monthly_amount > 0.0
  {
  }

  function AbsReal(x: real): real {
    if x < 0.0 then -x else x
  }

  const NoUserMessage := "User ID not found. Cannot save expense."
  const SaveFailedMessage := "Failed to save expense. Please try again."

  /** The message of the `RangeError` that `toISOString` throws for an invalid date, as V8 words it. */
  const InvalidTimeMessage := "Invalid time value"

  datatype Field = CategoryField | AmountField | DescriptionField | DateField

  class Modal {
    var form: ExpenseForm
    var isLoading: bool
    var error: Option<string>

    constructor(today: string)
      ensures form == EmptyForm(today) && !isLoading && error.None?
    {
      form := EmptyForm(today);
      isLoading := false;
      error := None;
    }

    /**
     * The effect when the modal opens: edit mode fills the form from the row, add mode
     * empties it. `today` is the browser's date text, and `date` what the row's localized
     * date converts back to, None when it is not a valid date. A row dated 'N/A', or one
     * whose date does not convert, makes `toISOString` throw: the effect stops there, with
     * the form and the error as they were.
     */
    method Open(eng: Engine, expense: Option<Tx>, today: string, date: Option<string>) returns (thrown: Option<string>)
      modifies this
      ensures thrown.Some? <==> IsEditMode(expense) && (expense.value.date.NotAvailable? || date.None?)
      ensures thrown.Some? ==> thrown.value == InvalidTimeMessage && form == old(form) && error == old(error)
      ensures thrown.None? && IsEditMode(expense) ==> form == FormOf(eng, expense.value, date.value) && error.None?
      ensures !IsEditMode(expense) ==> form == EmptyForm(today) && error.None?
      ensures isLoading == old(isLoading)
    {
      if IsEditMode(expense) {
        if expense.value.date.NotAvailable? || date.None? {
          return Some(InvalidTimeMessage);
        }
        form := FormOf(eng, expense.value, date.value);
      } else {
        form := EmptyForm(today);
      }
      error := None;
      thrown := None;
    }

    method Change(field: Field, value: string)
      modifies this
      ensures field == CategoryField ==> form == old(form).(expense_category := Str(value))
      ensures field == AmountField ==> form == old(form).(monthly_amount := Str(value))
      ensures field == DescriptionField ==> form == old(form).(description := Str(value))
      ensures field == DateField ==> form == old(form).(timestamp := Str(value))
      ensures isLoading == old(isLoading) && error == old(error)
    {
      match field {
        case CategoryField => form := form.(expense_category := Str(value));
        case AmountField => form := form.(monthly_amount := Str(value));
        case DescriptionField => form := form.(description := Str(value));
        case DateField => form := form.(timestamp := Str(value));
      }
    }

    /**
     * `handleSubmit` up to the remote call: without a user id it stops with a message
     * and calls nothing; otherwise it updates the expense by the row's id in edit mode
     * and creates one otherwise, and stays loading.
     */
    method Submit(eng: Engine, rawProfile: Option<RawProfile>, expense: Option<Tx>)
      returns (call: Option<SaveCall<ExpensePayload>>)
      modifies this
      ensures UserIdOf(rawProfile).None? ==> call.None? && error == Some(NoUserMessage) && !isLoading
      ensures UserIdOf(rawProfile).Some? ==> error.None? && isLoading
      ensures UserIdOf(rawProfile).Some? ==>
        call == Some(SaveCallFor(IsEditMode(expense), UserIdOf(rawProfile).value, ExpenseId(expense), PayloadOf(eng, form)))
      ensures form == old(form)
    {
      isLoading := true;
      error := None;
      var userId := UserIdOf(rawProfile);
      if userId.None? {
        error := Some(NoUserMessage);
        isLoading := false;
        return None;
      }
      var payload := PayloadOf(eng, form);
      if IsEditMode(expense) {
        call := Some(Update(userId.value, expense.value.id, payload));
      } else {
        call := Some(Create(userId.value, payload));
      }
    }

    /** The save call settles: `failure` is the thrown error's message, None on success. */
    method Settled(failure: Option<string>) returns (saved: bool)
      modifies this
      ensures saved <==> failure.None?
      ensures failure.Some? ==> error == Some(ErrorText(failure.value, SaveFailedMessage))
      ensures failure.None? ==> error == old(error)
      ensures !isLoading && form == old(form)
    {
      if failure.Some? {
        error := Some(ErrorText(failure.value, SaveFailedMessage));
      }
      isLoading := false;
      return failure.None?;
    }
  }
}
