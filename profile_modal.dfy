/** The modal that edits the profile's age, children, marital and retirement status. */
module ProfileModal {
  import opened Wrappers
  import opened Js
  import opened Forms

  /** The four editable profile fields as stored. */
  datatype ProfileFields = ProfileFields(age: Value, num_children: Value, marital_status: Value, retirement_status: Value)

  /** `currentUserData`: a nested `profile` when there is one, and the same fields flat. */
  datatype CurrentUserData = CurrentUserData(profile: Option<ProfileFields>, flat: ProfileFields)

  /** The form holds what it was filled with, or what the user typed. */
  datatype ProfileForm = ProfileForm(age: Value, num_children: Value, marital_status: Value, retirement_status: Value)

  const EmptyForm := ProfileForm(Str(""), Str(""), Str(""), Str(""))

  /** Filling the form: every falsy stored value becomes ''. */
  function FormOf(f: ProfileFields): (r: ProfileForm)
    ensures r.age == OrEmpty(f.age) && r.num_children == OrEmpty(f.num_children)
    ensures r.marital_status == OrEmpty(f.marital_status) && r.retirement_status == OrEmpty(f.retirement_status)
  {
    ProfileForm(OrEmpty(f.age), OrEmpty(f.num_children), OrEmpty(f.marital_status), OrEmpty(f.retirement_status))
  }

  /**
   * The body sent to `onSave`: the numbers as base-10 integers, or null (None) when
   * the field is empty; the statuses as typed, or null when empty. There are no goals.
   */
  datatype ProfilePayload = ProfilePayload(
    age: Option<Number>, num_children: Option<Number>, marital_status: Value, retirement_status: Value)

  function IntOrNull(eng: Engine, v: Value): (r: Option<Number>)
    ensures Truthy(v) <==> r.Some?
    ensures r.Some? ==> r.value == ParseInt10(eng, v)
  {
    if Truthy(v) then Some(ParseInt10(eng, v)) else None
  }

  /**
   * An empty number field is sent as null and a filled one reparsed; a status is sent
   * as typed when it is not empty, never as '', and as null otherwise.
   */
  function PayloadOf(eng: Engine, form: ProfileForm): (r: ProfilePayload)
    ensures r.age.None? <==> !Truthy(form.age)
    ensures r.age.Some? ==> r.age.value == ParseInt10(eng, form.age)
    ensures r.num_children.None? <==> !Truthy(form.num_children)
    ensures r.num_children.Some? ==> r.num_children.value == ParseInt10(eng, form.num_children)
    ensures r.marital_status == Null || Truthy(r.marital_status)
    ensures r.retirement_status == Null || Truthy(r.retirement_status)
    ensures Truthy(form.marital_status) ==> r.marital_status == form.marital_status
    ensures Truthy(form.retirement_status) ==> r.retirement_status == form.retirement_status
  {
    ProfilePayload(
      IntOrNull(eng, form.age), IntOrNull(eng, form.num_children),
      Or(form.marital_status, Null), Or(form.retirement_status, Null))
  }

  /**
   * Filling the form and saving it unchanged sends null for every falsy stored value,
   * so a stored `num_children` of 0 goes back as null, and sends the others as stored
   * (the numbers reparsed).
   */
  lemma UnchangedFormPayload(eng: Engine, f: ProfileFields)
    ensures var p := PayloadOf(eng, FormOf(f));
      (p.age.None? <==> !Truthy(f.age)) && (p.age.Some? ==> p.age.value == ParseInt10(eng, f.age))
      && (p.num_children.None? <==> !Truthy(f.num_children))
      && (p.num_children.Some? ==> p.num_children.value == ParseInt10(eng, f.num_children))
      && p.marital_status == (if Truthy(f.marital_status) then f.marital_status else Null)
      && p.retirement_status == (if Truthy(f.retirement_status) then f.retirement_status else Null)
  {
  }

  /** No children recorded as 0 is submitted as null. */
  lemma ZeroChildrenBecomesNull(eng: Engine, f: ProfileFields)
    requires f.num_children == Number(Num(0.0))
    ensures PayloadOf(eng, FormOf(f)).num_children.None?
  {
  }

  const SaveFailedMessage := "Failed to save profile. Please try again."

  datatype Field = AgeField | ChildrenField | MaritalField | RetirementField

  class Modal {
    var form: ProfileForm
    var isLoading: bool
    var error: Option<string>

    constructor()
      ensures form == EmptyForm && !isLoading && error.None?
    {
      form := EmptyForm;
      isLoading := false;
      error := None;
    }

    /** The effect on `currentUserData`: it prefers the nested profile; with no data the form is kept. */
    method Load(data: Option<CurrentUserData>)
      modifies this
      ensures data.Some? && data.value.profile.Some? ==> form == FormOf(data.value.profile.value)
      ensures data.Some? && data.value.profile.None? ==> form == FormOf(data.value.flat)
      ensures data.None? ==> form == old(form)
      ensures isLoading == old(isLoading) && error == old(error)
    {
      if data.Some? && data.value.profile.Some? {
        form := FormOf(data.value.profile.value);
      } else if data.Some? {
        form := FormOf(data.value.flat);
      }
    }

    method Change(field: Field, value: string)
      modifies this
      ensures field == AgeField ==> form == old(form).(age := Str(value))
      ensures field == ChildrenField ==> form == old(form).(num_children := Str(value))
      ensures field == MaritalField ==> form == old(form).(marital_status := Str(value))
      ensures field == RetirementField ==> form == old(form).(retirement_status := Str(value))
      ensures isLoading == old(isLoading) && error == old(error)
    {
      match field {
        case AgeField => form := form.(age := Str(value));
        case ChildrenField => form := form.(num_children := Str(value));
        case MaritalField => form := form.(marital_status := Str(value));
        case RetirementField => form := form.(retirement_status := Str(value));
      }
    }

    /** `handleSubmit` up to `onSave`: there is no guard, so the payload is always handed over. */
    method Submit(eng: Engine) returns (payload: ProfilePayload)
      modifies this
      ensures payload == PayloadOf(eng, form)
      ensures isLoading && error.None? && form == old(form)
    {
      isLoading := true;
      error := None;
      payload := PayloadOf(eng, form);
    }

    /** `onSave` settles: `failure` is the thrown error's message, None on success. */
    method Settled(failure: Option<string>)
      modifies this
      ensures failure.Some? ==> error == Some(ErrorText(failure.value, SaveFailedMessage))
      ensures failure.None? ==> error == old(error)
      ensures !isLoading && form == old(form)
    {
      if failure.Some? {
        error := Some(ErrorText(failure.value, SaveFailedMessage));
      }
      isLoading := false;
    }
  }
}
