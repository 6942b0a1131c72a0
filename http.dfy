/**
 * How a request made with `fetch` ends, as the pages and the user context see it,
 * the `detail` of an error body, and the error text they build from a failed response.
 */
module Http {
  import opened Js
  import opened Seqs
  import opened Text

  /** One entry of a validation-error list: its `loc` path (each part as text) and `msg`. */
  datatype ValidationItem = ValidationItem(loc: seq<string>, msg: string)

  /**
   * The `detail` of a decoded body: a scalar (undefined when the body has none, or is not an
   * object), an array of validation entries, or a plain object.
   */
  datatype Detail = Scalar(value: Value) | List(items: seq<ValidationItem>) | Record

  /** The body of an error response: unreadable JSON, the JSON `null`, or any other value. */
  datatype ErrorBody = Unreadable | NullBody | ErrorObject(detail: Detail)

  /** A request whose successful body decodes to a `T`. */
  datatype Outcome<T> =
    | Rejected(message: string)                  // the request, or reading its body, threw
    | HttpError(status: nat, body: ErrorBody)     // `response.ok` was false
    | ReceivedNull                                // the successful body is the JSON `null`
    | Received(data: T)

  /** `String(o)` for a plain object. */
  const ObjectText := "[object Object]"

  /** The message of the `TypeError` thrown by reading property `name` of `null`. */
  function NullRead(name: string): string {
    "Cannot read properties of null (reading '" + name + "')"
  }

  /** An array is truthy even when empty, and so is an object; a scalar as `Truthy` says. */
  predicate DetailTruthy(d: Detail) {
    d.List? || d.Record? || Truthy(d.value)
  }

  /** `String(array)` for an array of objects: one "[object Object]" per entry, comma-separated. */
  function ArrayText(items: seq<ValidationItem>): string {
    Join(seq(|items|, i => ObjectText), ",")
  }

  /** The array text is empty exactly for the empty array, and 16 characters per entry less one otherwise. */
  lemma {:induction false} ArrayTextLength(items: seq<ValidationItem>)
    ensures items == [] <==> ArrayText(items) == ""
    ensures items != [] ==> |ArrayText(items)| == 16 * |items| - 1
    decreases |items|
  {
    if |items| > 1 {
      var parts := seq(|items|, i => ObjectText);
      assert parts[1..] == seq(|items| - 1, i => ObjectText);
      assert ArrayText(items) == ObjectText + "," + ArrayText(items[1..]);
      ArrayTextLength(items[1..]);
    } else if |items| == 1 {
      assert ArrayText(items) == ObjectText;
    }
  }

  /** `String(detail)`, as a template literal or `new Error(detail)` converts it. */
  function DetailText(eng: Engine, d: Detail): string {
    match d
    case Scalar(v) => ToString(eng, v)
    case List(items) => ArrayText(items)
    case Record => ObjectText
  }

  /**
   * `${prefix}${response.status} - ${errorData.detail}`, where an unreadable body
   * stands for `{ detail: 'HTTP error <status>' }`; reading `detail` of a `null` body
   * throws instead, and that message is the one caught.
   */
  function FailureMessage(eng: Engine, prefix: string, status: nat, body: ErrorBody): (m: string)
    ensures body.NullBody? ==> m == NullRead("detail")
    ensures !body.NullBody? ==>
      && |m| > |prefix| + |NatToString(status)|
      && m[..|prefix|] == prefix
      && m[|prefix|..|prefix| + |NatToString(status)|] == NatToString(status)
      && DigitsValue(m[|prefix|..|prefix| + |NatToString(status)|]) == status
      && m[|prefix| + |NatToString(status)|] == ' '
    ensures body.Unreadable? ==> m == prefix + NatToString(status) + " - HTTP error " + NatToString(status)
    ensures body.ErrorObject? ==> m == prefix + NatToString(status) + " - " + DetailText(eng, body.detail)
  {
    NatToStringRoundTrip(status);
    var head := prefix + NatToString(status) + " - ";
    assert head[|prefix| + |NatToString(status)|] == ' ';
    match body
    case NullBody => NullRead("detail")
    case Unreadable => head + "HTTP error " + NatToString(status)
    case ErrorObject(d) => head + DetailText(eng, d)
  }

  /**
   * Two failures give the same message only when they agree on the status: a message built
   * from a readable or unreadable body names its status, and the status reads back from it.
   */
  lemma FailureMessageNamesStatus(eng: Engine, prefix: string, s1: nat, b1: ErrorBody, s2: nat, b2: ErrorBody)
    requires !b1.NullBody? && !b2.NullBody?
    requires FailureMessage(eng, prefix, s1, b1) == FailureMessage(eng, prefix, s2, b2)
    ensures s1 == s2
  {
  }
}
