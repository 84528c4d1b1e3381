/**
  Classification of HTTP responses (error.go, `RequestError`).

  A response is modelled by its status code and what reading its body yields:
  either a read error, or bytes whose decoding is already known both as the
  service's `ErrorResponse` and as the endpoint's own response type.
 */
module Status {
  import opened Errors
  import opened Records

  /** The outcomes of decoding one body as an error payload and as a `T`. */
  datatype Payload<+T> = Payload(asError: Result<ErrorResponse>, asValue: Result<T>)

  datatype Body<+T> = Unreadable(readError: Error) | Readable(payload: Payload<T>)

  datatype Response<+T> = Response(statusCode: int, body: Body<T>)

  /** Go's integer quotient, which truncates toward zero (Dafny's `/` does not for a < 0). */
  function Quotient(a: int, d: nat): (q: int)
    requires d > 0
  {
    if a >= 0 then a / d else -((-a) / d)
  }

  /** The hundreds digit the library inspects: `StatusCode/100`. */
  function StatusClass(code: int): (hundreds: int)
  {
    Quotient(code, 100)
  }

  predicate Successful(code: int)
  {
    200 <= code <= 299
  }

  /** Only codes 200 through 299 are in class 2, negative codes included. */
  lemma ClassTwoIsSuccessful(code: int)
    ensures StatusClass(code) == 2 <==> Successful(code)
  {
    if code < 0 {
      assert Quotient(code, 100) <= 0;
    }
  }

  /** What `RequestError` returns, and whether it consumed the response body. */
  datatype Checked = Checked(err: Option<Error>, bodyConsumed: bool)

  /**
    Outside class 2 the body is read and decoded as an error payload; a read or
    decode failure is returned, but a payload that decodes is only printed and
    the function reports no error.
   */
  function RequestError<T>(resp: Response<T>): (c: Checked)
    ensures c.bodyConsumed <==> !Successful(resp.statusCode)
    ensures c.err.None? <==>
      Successful(resp.statusCode) || (resp.body.Readable? && resp.body.payload.asError.Ok?)
    ensures c.err.Some? && resp.body.Unreadable? ==> c.err.value == resp.body.readError
    ensures c.err.Some? && resp.body.Readable? ==> c.err.value == resp.body.payload.asError.error
  {
    ClassTwoIsSuccessful(resp.statusCode);
    if StatusClass(resp.statusCode) != 2 then
      match resp.body
      case Unreadable(e) => Checked(Some(e), true)
      case Readable(p) =>
        match p.asError
        case Err(e) => Checked(Some(e), true)
        case Ok(_) => Checked(None, true)
    else
      Checked(None, false)
  }
}
