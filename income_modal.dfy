/** The modal that adds or edits an income source. */
module IncomeModal {
  import opened Wrappers
  import opened Js
  import opened Records
  import opened Forms

  /** `Boolean(income && income.income_id)`. */
  predicate IsEditMode(income: Option<RawIncome>) {
    income.Some? && Truthy(income.value.income_id)
  }

  /** `income.income_id`, read only in edit mode. */
  function IncomeId(income: Option<RawIncome>): Value {
    if income.Some? then income.value.income_id else Undefined
  }

  datatype IncomeForm = IncomeForm(income_source: Value, monthly_income: Value, description: Value)

  const EmptyForm := IncomeForm(Str(""), Str(""), Str(""))

  /** The form filled from an income record; falsy fields become ''. */
  function FormOf(eng: Engine, i: RawIncome): (f: IncomeForm)
    ensures f.income_source == OrEmpty(i.income_source) && f.description == OrEmpty(i.description)
    ensures Truthy(i.monthly_income) ==> f.monthly_income == Str(ToString(eng, i.monthly_income))
    ensures !Truthy(i.monthly_income) ==> f.monthly_income == Str("")
  {
    IncomeForm(
      OrEmpty(i.income_source),
      if Truthy(i.monthly_income) then Str(ToString(eng, i.monthly_income)) else Str(""),
      OrEmpty(i.description))
  }

  /** The body of the save call: the source as typed, the amount parsed (0 when unparsable or zero), an empty description as null. */
  datatype IncomePayload = IncomePayload(income_source: Value, monthly_income: real, description: Value)

  function PayloadOf(eng: Engine, form: IncomeForm): (p: IncomePayload)
    ensures p.income_source == form.income_source
    ensures p.monthly_income == OrZero(ParseFloat(eng, form.monthly_income))
    ensures p.description == EmptyToNull(form.description)
  {
    IncomePayload(form.income_source, OrZero(ParseFloat(eng, form.monthly_income)), EmptyToNull(form.description))
  }

  /**
   * Editing an income and saving it unchanged keeps a truthy source and description,
   * turns a missing description into null, and sends the amount parsed back from its text.
   */
  lemma UnchangedFormPayload(eng: Engine, i: RawIncome)
    ensures var p := PayloadOf(eng, FormOf(eng, i));
      (Truthy(i.income_source) ==> p.income_source == i.income_source)
      && (Truthy(i.description) ==> p.description == i.description)
      && (!Truthy(i.description) ==> p.description == Null)
      && (Truthy(i.monthly_income) ==> p.monthly_income == OrZero(ParseFloat(eng, i.monthly_income)))
  {
  }

  const NoUserMessage := "User ID not found. Cannot save income."
  const SaveFailedMessage := "Failed to save income. Please try again."

  datatype Field = SourceField | AmountField | DescriptionField

  class Modal {
    var form: IncomeForm
    var isLoading: bool
    var error: Option<string>

    constructor()
      ensures form == EmptyForm && !isLoading && error.None?
    {
      form := EmptyForm;
      isLoading := false;
      error := None;
    }

    /** The effect when the modal opens: edit mode fills the form from the record, add mode empties it. */
    method Open(eng: Engine, income: Option<RawIncome>)
      modifies this
      ensures IsEditMode(income) ==> form == FormOf(eng, income.value)
      ensures !IsEditMode(income) ==> form == EmptyForm
      ensures error.None? && isLoading == old(isLoading)
    {
      if IsEditMode(income) {
        form := FormOf(eng, income.value);
      } else {
        form := EmptyForm;
      }
      error := None;
    }

    method Change(field: Field, value: string)
      modifies this
      ensures field == SourceField ==> form == old(form).(income_source := Str(value))
      ensures field == AmountField ==> form == old(form).(monthly_income := Str(value))
      ensures field == DescriptionField ==> form == old(form).(description := Str(value))
      ensures isLoading == old(isLoading) && error == old(error)
    {
      match field {
        case SourceField => form := form.(income_source := Str(value));
        case AmountField => form := form.(monthly_income := Str(value));
        case DescriptionField => form := form.(description := Str(value));
      }
    }

    /**
     * `handleSubmit` up to the remote call: without a user id it stops with a message
     * and calls nothing; otherwise it updates the income by its id in edit mode and
     * creates one otherwise, and stays loading.
     */
    method Submit(eng: Engine, rawProfile: Option<RawProfile>, income: Option<RawIncome>)
      returns (call: Option<SaveCall<IncomePayload>>)
      modifies this
      ensures UserIdOf(rawProfile).None? ==> call.None? && error == Some(NoUserMessage) && !isLoading
      ensures UserIdOf(rawProfile).Some? ==> error.None? && isLoading
      ensures UserIdOf(rawProfile).Some? ==>
        call == Some(SaveCallFor(IsEditMode(income), UserIdOf(rawProfile).value, IncomeId(income), PayloadOf(eng, form)))
      ensures form == old(form)
    {
      isLoading := true;
      error := None;
      var userId := UserIdOf(rawProfile);
      if userId.None? {
        error := Some(NoUserMessage);
        isLoading := false;
        return None;
      }
      var payload := PayloadOf(eng, form);
      if IsEditMode(income) {
        call := Some(Update(userId.value, income.value.income_id, payload));
      } else {
        call := Some(Create(userId.value, payload));
      }
    }

    /** The save call settles: `failure` is the thrown error's message, None on success. */
    method Settled(failure: Option<string>) returns (saved: bool)
      modifies this
      ensures saved <==> failure.None?
      ensures failure.Some? ==> error == Some(ErrorText(failure.value, SaveFailedMessage))
      ensures failure.None? ==> error == old(error)
      ensures !isLoading && form == old(form)
    {
      if failure.Some? {
        error := Some(ErrorText(failure.value, SaveFailedMessage));
      }
      isLoading := false;
      return failure.None?;
    }
  }
}
