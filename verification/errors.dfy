/**
  Failure values of the client library.

  Go returns a `(value, error)` pair from nearly every call, and on failure the
  value half is the zero value of its type. `Reply` keeps both halves so that
  the zero value stays visible in the model.
 */
module Errors {

  datatype Option<+T> = None | Some(value: T)

  datatype Result<+T> = Ok(value: T) | Err(error: Error)

  /** The errors the core can return, by where they arise. */
  datatype Error =
    | Transport(reason: string)          // the HTTP client could not complete the exchange
    | BodyRead(reason: string)           // reading a response body failed
    | Syntax(reason: string)             // a body is not JSON of the expected shape
    | PathError(op: string, path: string) // a file-system operation failed
    | Plain(message: string)             // an error built from a fixed message
    | InvalidNumber(literal: string)     // `json: invalid number literal`: a json.Number that is not a number

  /** A Go-style result: the value and an optional error. */
  datatype Reply<+T> = Reply(value: T, err: Option<Error>)

  /** What the JSON decoder reports for an empty input. */
  const EndOfInput: Error := Syntax("unexpected end of JSON input")
}
