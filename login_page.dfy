/**
 * The login page: the error message each handler builds from a failed response, the
 * call to `login` on success, and the `isLoading`, `error` and `isRegistering` state.
 */
module LoginPage {
  import opened Js
  import opened Seqs
  import opened Text
  import opened Forms
  import opened AuthContext
  import opened Http

  /**
   * How a request ends: `fetch` or `response.json()` threw, a body was read, or the body
   * was the JSON `null`.
   */
  datatype Reply = Threw(message: string) | Answered(ok: bool, status: nat, detail: Detail) | NullAnswer(ok: bool, status: nat)

  const LoginStatusPrefix := "Login failed with status: "
  const RegisterStatusPrefix := "Registration failed with status: "
  const LoginFallback := "An error occurred during login. Please try again."
  const RegisterFallback := "An error occurred during registration. Please try again."

  /** `${prefix}${status}`: the prefix, then digits that read back as the status. */
  function StatusMessage(prefix: string, status: nat): (m: string)
    ensures |m| > |prefix| && m[..|prefix|] == prefix
    ensures forall i :: |prefix| <= i < |m| ==> IsDigit(m[i])
    ensures DigitsValue(m[|prefix|..]) == status
  {
    NatToStringRoundTrip(status);
    var m := prefix + NatToString(status);
    assert m[|prefix|..] == NatToString(status);
    m
  }

  /** `${err.loc.join(' -> ')}: ${err.msg}`. */
  function ItemText(item: ValidationItem): string {
    Join(item.loc, " -> ") + ": " + item.msg
  }

  /** `detail.map(...).join('; ')`. */
  function ItemsText(items: seq<ValidationItem>): string {
    Join(Map(items, ItemText), "; ")
  }

  /**
   * The registration text for a list: one entry gives its own text, each further
   * entry adds "; " and its text, and a non-empty list never gives "".
   */
  lemma {:induction false} ItemsTextMeaning(items: seq<ValidationItem>, item: ValidationItem)
    ensures ItemsText([item]) == Join(item.loc, " -> ") + ": " + item.msg
    ensures items != [] ==> ItemsText(items + [item]) == ItemsText(items) + "; " + ItemText(item)
    ensures items != [] ==> ItemsText(items) != ""
  {
    if items != [] {
      assert Map(items + [item], ItemText) == Map(items, ItemText) + [ItemText(item)];
      JoinAppend(Map(items, ItemText), ItemText(item), "; ");
      assert |ItemText(items[0])| >= 2;
    }
  }

  /**
   * The message thrown for a failed login: `data.detail || "Login failed with status: N"`,
   * converted to text by `new Error`.
   */
  function LoginFailure(eng: Engine, status: nat, detail: Detail): string {
    if !DetailTruthy(detail) then StatusMessage(LoginStatusPrefix, status)
    else DetailText(eng, detail)
  }

  /** The message thrown for a failed registration. */
  function RegisterFailure(eng: Engine, status: nat, detail: Detail): string {
    if !DetailTruthy(detail) then StatusMessage(RegisterStatusPrefix, status)
    else match detail
      case List(items) => ItemsText(items)
      case _ => DetailText(eng, detail)
  }

  /**
   * The message thrown by a login attempt that does not log in; a `null` body throws on
   * reading `data.detail`, or `data.user_id` once the response is ok.
   */
  function LoginThrown(eng: Engine, reply: Reply): string {
    match reply
    case Threw(message) => message
    case Answered(_, status, detail) => LoginFailure(eng, status, detail)
    case NullAnswer(ok, _) => NullRead(if ok then "user_id" else "detail")
  }

  /** The message thrown by a registration attempt that does not log in. */
  function RegisterThrown(eng: Engine, reply: Reply): string {
    match reply
    case Threw(message) => message
    case Answered(_, status, detail) => RegisterFailure(eng, status, detail)
    case NullAnswer(ok, _) => NullRead(if ok then "user_id" else "detail")
  }

  /** Only a readable body with `response.ok` logs the user in. */
  predicate Accepted(reply: Reply) {
    reply.Answered? && reply.ok
  }

  /**
   * What a failed login shows: a falsy detail gives the status message, which reads back as
   * the status; a non-empty string detail is shown as it is; an array of n entries shows
   * n "[object Object]" texts, and the empty array leaves the message empty, so the fallback
   * shows.
   */
  lemma LoginErrorShown(eng: Engine, status: nat, detail: Detail)
    ensures var shown := ErrorText(LoginFailure(eng, status, detail), LoginFallback);
      && (!DetailTruthy(detail) ==>
            shown[..|LoginStatusPrefix|] == LoginStatusPrefix
            && DigitsValue(shown[|LoginStatusPrefix|..]) == status)
      && (detail.Scalar? && detail.value.Str? && detail.value.s != "" ==> shown == detail.value.s)
      && (detail == List([]) ==> shown == LoginFallback)
      && (detail.List? && detail.items != [] ==> |shown| == 16 * |detail.items| - 1)
      && (detail.Record? ==> shown == ObjectText)
  {
    if detail.List? {
      ArrayTextLength(detail.items);
    }
  }

  /**
   * What a failed registration shows: a falsy detail gives the status message, which reads
   * back as the status; a non-empty string detail is shown as it is; a non-empty array
   * shows its entries' texts joined by "; ", and the empty array shows the fallback.
   */
  lemma RegisterErrorShown(eng: Engine, status: nat, detail: Detail)
    ensures var shown := ErrorText(RegisterFailure(eng, status, detail), RegisterFallback);
      && (!DetailTruthy(detail) ==>
            shown[..|RegisterStatusPrefix|] == RegisterStatusPrefix
            && DigitsValue(shown[|RegisterStatusPrefix|..]) == status)
      && (detail.Scalar? && detail.value.Str? && detail.value.s != "" ==> shown == detail.value.s)
      && (detail == List([]) ==> shown == RegisterFallback)
      && (detail.List? && detail.items != [] ==> shown == ItemsText(detail.items))
      && (detail.Record? ==> shown == ObjectText)
  {
    if detail.List? && detail.items != [] {
      ItemsTextMeaning(detail.items, detail.items[0]);
    }
  }

  /** The page's state. The email and password inputs are not modelled. */
  class Page {
    var error: string
    var isLoading: bool
    var isRegistering: bool

    constructor()
      ensures error == "" && !isLoading && !isRegistering
    {
      error := "";
      isLoading := false;
      isRegistering := false;
    }

    /** The start of either handler: loading, with the error cleared. */
    method Start()
      modifies this
      ensures isLoading && error == "" && isRegistering == old(isRegistering)
    {
      isLoading := true;
      error := "";
    }

    /**
     * `handleLogin` once the request settles: an ok response logs in and leaves the error;
     * anything else shows the thrown message, or the fallback when it is empty. Loading ends
     * either way.
     */
    method LoginSettled(eng: Engine, auth: AuthProvider, reply: Reply)
      modifies this, auth
      ensures !isLoading && isRegistering == old(isRegistering)
      ensures Accepted(reply) ==> auth.isLoggedIn && error == old(error)
      ensures !Accepted(reply) ==>
        auth.isLoggedIn == old(auth.isLoggedIn) && error == ErrorText(LoginThrown(eng, reply), LoginFallback)
    {
      if Accepted(reply) {
        auth.Login();
      } else {
        error := ErrorText(LoginThrown(eng, reply), LoginFallback);
      }
      isLoading := false;
    }

    /** `handleRegister` once the request settles, the same way with its own messages. */
    method RegisterSettled(eng: Engine, auth: AuthProvider, reply: Reply)
      modifies this, auth
      ensures !isLoading && isRegistering == old(isRegistering)
      ensures Accepted(reply) ==> auth.isLoggedIn && error == old(error)
      ensures !Accepted(reply) ==>
        auth.isLoggedIn == old(auth.isLoggedIn) && error == ErrorText(RegisterThrown(eng, reply), RegisterFallback)
    {
      if Accepted(reply) {
        auth.Login();
      } else {
        error := ErrorText(RegisterThrown(eng, reply), RegisterFallback);
      }
      isLoading := false;
    }

    /** `toggleFormMode`: switch between signing in and registering, clearing the error. */
    method ToggleFormMode()
      modifies this
      ensures isRegistering == !old(isRegistering) && error == "" && isLoading == old(isLoading)
    {
      isRegistering := !isRegistering;
      error := "";
    }
  }
}
