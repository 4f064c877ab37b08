/** Values shared by the three POST handlers of the donation backend: the
    optional fields of a JSON request body, JavaScript truthiness of those
    fields, the error responses, and the replies of the payment gateway. */
module Common {

  /** A request-body or environment field that may be absent (`undefined`). */
  datatype Option<T> = None | Some(value: T)

  /** An error response: the HTTP status and the `error` text of its JSON body. */
  datatype Failure = Failure(status: int, error: string)

  /** Either the value a handler goes on with or the error response it returns early. */
  datatype Result<T> = Ok(value: T) | Err(failure: Failure)

  /** What an awaited gateway call (`orders.create`, `subscriptions.create`)
      produced: an object, `null` or `undefined`, or a thrown error with its message. */
  datatype GatewayReply<T> = Created(value: T) | NoResult | Threw(message: string)

  /** HMAC-SHA256 of a message under a secret key, hex-encoded. It is a parameter
      of the model: nothing is assumed about it beyond being a function. */
  type Mac = (string, string) -> string

  const BadRequest: int := 400
  const ServerError: int := 500
  const Unavailable: int := 503

  /** JavaScript truthiness of an optional string: `undefined` and `""` are falsy. */
  predicate Present(f: Option<string>)
  {
    f.Some? && f.value != ""
  }

  /** JavaScript truthiness of an optional number: `undefined` and `0` are falsy. */
  predicate Truthy(n: Option<int>)
  {
    n.Some? && n.value != 0
  }

  /** `String(f || '')`: the field's text, or the empty string when it is falsy. */
  function TextOr(f: Option<string>): (s: string)
    ensures Present(f) ==> s == f.value
    ensures !Present(f) ==> s == ""
    ensures |s| == 0 <==> !Present(f)
  {
    if Present(f) then f.value else ""
  }

  /** JavaScript `a || b` on optional numbers: `a` when it is truthy, else `b`. */
  function Or(a: Option<int>, b: Option<int>): (r: Option<int>)
    ensures Truthy(r) <==> Truthy(a) || Truthy(b)
    ensures r == a || r == b
    ensures Truthy(a) ==> r == a
  {
    if Truthy(a) then a else b
  }
}
