/** Normalisation rules the entity modals share. */
module Forms {
  import opened Wrappers
  import opened Js
  import opened Records

  /** `value || ''`: how a form field is filled from a stored value. */
  function OrEmpty(v: Value): (r: Value)
    ensures Truthy(v) ==> r == v
    ensures !Truthy(v) ==> r == Str("")
  {
    Or(v, Str(""))
  }

  /** `if (payload.x === '') payload.x = null`. */
  function EmptyToNull(v: Value): (r: Value)
    ensures v == Str("") ==> r == Null
    ensures v != Str("") ==> r == v
  {
    if v == Str("") then Null else v
  }

  /** `err.message || fallback`: the text a failed save shows. */
  function ErrorText(message: string, fallback: string): (r: string)
    ensures message != "" ==> r == message
    ensures message == "" ==> r == fallback
  {
    if message != "" then message else fallback
  }

  /** `user._rawProfile.user_id` when every step is truthy; None is the guard's failing case. */
  function UserIdOf(rawProfile: Option<RawProfile>): (r: Option<Value>)
    ensures r.Some? <==> rawProfile.Some? && Truthy(rawProfile.value.user_id)
    ensures r.Some? ==> r.value == rawProfile.value.user_id
  {
    if rawProfile.Some? && Truthy(rawProfile.value.user_id) then Some(rawProfile.value.user_id) else None
  }

  /** The remote call a save makes. */
  datatype SaveCall<P> = Create(userId: Value, payload: P) | Update(userId: Value, id: Value, payload: P)

  /** Edit mode updates the record with its id; otherwise a new record is created. */
  function SaveCallFor<P>(editMode: bool, userId: Value, id: Value, payload: P): (c: SaveCall<P>)
    ensures c.Update? <==> editMode
    ensures c.userId == userId && c.payload == payload
    ensures c.Update? ==> c.id == id
  {
    if editMode then Update(userId, id, payload) else Create(userId, payload)
  }
}
