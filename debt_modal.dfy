/** The modal that adds or edits a debt account. */
module DebtModal {
  import opened Wrappers
  import opened Js
  import opened Records
  import opened Forms
  import opened UserContext

  /** `Boolean(debt && debt.id)`. */
  predicate IsEditMode(debt: Option<DetailedDebt>) {
    debt.Some? && Truthy(debt.value.id)
  }

  /** `debt.id`, read only in edit mode. */
  function DebtId(debt: Option<DetailedDebt>): Value {
    if debt.Some? then debt.value.id else Undefined
  }

  datatype DebtForm = DebtForm(account_name: Value, current_balance: Value, interest_rate: Value, min_monthly_payment: Value)

  const EmptyForm := DebtForm(Str(""), Str(""), Str(""), Str(""))

  /** `x ? String(x) : ''` for a number. */
  function NumberText(eng: Engine, n: Number): (r: Value)
    ensures Truthy(Number(n)) ==> r == Str(ToString(eng, Number(n)))
    ensures !Truthy(Number(n)) ==> r == Str("")
  {
    if Truthy(Number(n)) then Str(ToString(eng, Number(n))) else Str("")
  }

  /** The form filled from a listed debt; falsy fields become ''. The rate is reparsed, not scaled. */
  function FormOf(eng: Engine, d: DetailedDebt): (r: DebtForm)
    ensures Truthy(d.name) ==> r.account_name == d.name
    ensures !Truthy(d.name) ==> r.account_name == Str("")
    ensures r.current_balance.Str? && r.interest_rate.Str? && r.min_monthly_payment.Str?
    ensures !Truthy(Number(d.amount)) ==> r.current_balance == Str("")
    ensures !Truthy(d.interest_rate) ==> r.interest_rate == Str("")
    ensures d.min_monthly_payment.None? ==> r.min_monthly_payment == Str("")
  {
    DebtForm(
      OrEmpty(d.name),
      NumberText(eng, d.amount),
      if Truthy(d.interest_rate) then Str(ToString(eng, Number(ParseFloat(eng, d.interest_rate)))) else Str(""),
      if d.min_monthly_payment.Some? then NumberText(eng, d.min_monthly_payment.value) else Str(""))
  }

  /**
   * The body of the save call: the balance parsed, 0 when unparsable or zero; the rate
   * parsed when the field is non-empty, else null (None), and not divided by 100; the
   * minimum payment parsed, null when unparsable or zero; an empty name as null.
   */
  datatype DebtPayload = DebtPayload(
    account_name: Value, current_balance: real, interest_rate: Option<Number>, min_monthly_payment: Option<real>)

  function PayloadOf(eng: Engine, form: DebtForm): (p: DebtPayload)
    ensures p.account_name == EmptyToNull(form.account_name)
    ensures p.current_balance == OrZero(ParseFloat(eng, form.current_balance))
    ensures p.interest_rate.Some? <==> Truthy(form.interest_rate)
    ensures p.interest_rate.Some? ==> p.interest_rate.value == ParseFloat(eng, form.interest_rate)
    ensures p.min_monthly_payment == OrNull(ParseFloat(eng, form.min_monthly_payment))
  {
    DebtPayload(
      EmptyToNull(form.account_name),
      OrZero(ParseFloat(eng, form.current_balance)),
      if Truthy(form.interest_rate) then Some(ParseFloat(eng, form.interest_rate)) else None,
      OrNull(ParseFloat(eng, form.min_monthly_payment)))
  }

  /**
   * Editing a debt and saving it unchanged sends its name back (null when it had none),
   * its balance back (0 when it had none) and its minimum payment back (null when it had
   * none), given that the engine reads the numbers it prints back as themselves.
   */
  lemma UnchangedFormPayload(eng: Engine, d: DetailedDebt)
    requires d.amount.Num? ==> eng.parseFloat(eng.numberToString(d.amount.value)) == d.amount
    requires d.min_monthly_payment.Some? && d.min_monthly_payment.value.Num? ==>
      eng.parseFloat(eng.numberToString(d.min_monthly_payment.value.value)) == d.min_monthly_payment.value
    requires eng.parseFloat("") == NaN
    ensures PayloadOf(eng, FormOf(eng, d)).account_name == if Truthy(d.name) then d.name else Null
    ensures PayloadOf(eng, FormOf(eng, d)).current_balance == OrZero(d.amount)
    ensures PayloadOf(eng, FormOf(eng, d)).min_monthly_payment ==
      if d.min_monthly_payment.Some? then OrNull(d.min_monthly_payment.value) else None
  {
  }

  const NoUserMessage := "User ID not found. Cannot save debt."
  const SaveFailedMessage := "Failed to save debt. Please try again."

  datatype Field = NameField | BalanceField | RateField | MinimumField

  class Modal {
    var form: DebtForm
    var isLoading: bool
    var error: Option<string>

    constructor()
      ensures form == EmptyForm && !isLoading && error.None?
    {
      form := EmptyForm;
      isLoading := false;
      error := None;
    }

    /** The effect when the modal opens: edit mode fills the form from the debt, add mode empties it. */
    method Open(eng: Engine, debt: Option<DetailedDebt>)
      modifies this
      ensures IsEditMode(debt) ==> form == FormOf(eng, debt.value)
      ensures !IsEditMode(debt) ==> form == EmptyForm
      ensures error.None? && isLoading == old(isLoading)
    {
      if IsEditMode(debt) {
        form := FormOf(eng, debt.value);
      } else {
        form := EmptyForm;
      }
      error := None;
    }

    method Change(field: Field, value: string)
      modifies this
      ensures field == NameField ==> form == old(form).(account_name := Str(value))
      ensures field == BalanceField ==> form == old(form).(current_balance := Str(value))
      ensures field == RateField ==> form == old(form).(interest_rate := Str(value))
      ensures field == MinimumField ==> form == old(form).(min_monthly_payment := Str(value))
      ensures isLoading == old(isLoading) && error == old(error)
    {
      match field {
        case NameField => form := form.(account_name := Str(value));
        case BalanceField => form := form.(current_balance := Str(value));
        case RateField => form := form.(interest_rate := Str(value));
        case MinimumField => form := form.(min_monthly_payment := Str(value));
      }
    }

    /**
     * `handleSubmit` up to the remote call: without a user id it stops with a message
     * and calls nothing; otherwise it updates the debt by its id in edit mode and
     * creates one otherwise, and stays loading.
     */
    method Submit(eng: Engine, rawProfile: Option<RawProfile>, debt: Option<DetailedDebt>)
      returns (call: Option<SaveCall<DebtPayload>>)
      modifies this
      ensures UserIdOf(rawProfile).None? ==> call.None? && error == Some(NoUserMessage) && !isLoading
      ensures UserIdOf(rawProfile).Some? ==> error.None? && isLoading
      ensures UserIdOf(rawProfile).Some? ==>
        call == Some(SaveCallFor(IsEditMode(debt), UserIdOf(rawProfile).value, DebtId(debt), PayloadOf(eng, form)))
      ensures form == old(form)
    {
      isLoading := true;
      error := None;
      var userId := UserIdOf(rawProfile);
      if userId.None? {
        error := Some(NoUserMessage);
        isLoading := false;
        return None;
      }
      var payload := PayloadOf(eng, form);
      if IsEditMode(debt) {
        call := Some(Update(userId.value, debt.value.id, payload));
      } else {
        call := Some(Create(userId.value, payload));
      }
    }

    /** The save call settles: `failure` is the thrown error's message, None on success. */
    method Settled(failure: Option<string>) returns (saved: bool)
      modifies this
      ensures saved <==> failure.None?
      ensures failure.Some? ==> error == Some(ErrorText(failure.value, SaveFailedMessage))
      ensures failure.None? ==> error == old(error)
      ensures !isLoading && form == old(form)
    {
      if failure.Some? {
        error := Some(ErrorText(failure.value, SaveFailedMessage));
      }
      isLoading := false;
      return failure.None?;
    }
  }
}
