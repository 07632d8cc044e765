/** Option, Result and Outcome: the failure-carrying values the model
    uses in place of JavaScript's `null`/`undefined`, thrown exceptions
    and rejected promises. */
module Wrappers {

  datatype Option<+T> = None | Some(value: T)

  /** The result of an operation that either yields a value or throws. */
  datatype Result<+R, +E> = Ok(value: R) | Err(error: E)

  /** The result of an operation that yields nothing or throws. */
  datatype Outcome<+E> = Pass | Fail(error: E)

  /** A value thrown by JavaScript code. `ErrorObject` is an instance of
      `Error` carrying its `message`; `OtherValue` is anything else that
      can be thrown (a string, a plain object, `undefined`). */
  datatype Fault = ErrorObject(message: string) | OtherValue

  const UNKNOWN_ERROR := "Unknown error occurred"

  /** `error instanceof Error ? error.message : 'Unknown error occurred'`,
      the fallback both catch blocks of the API service use. */
  function FaultMessage(f: Fault): string
  {
    match f
    case ErrorObject(msg) => msg
    case OtherValue => UNKNOWN_ERROR
  }
}
