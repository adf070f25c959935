/** Values of the JavaScript runtime the application relies on: nullable values,
    thrown values, and the truthiness test that `if (!x)` performs on strings. */
module Js {

  datatype Option<+T> = None | Some(value: T)

  /** Either the awaited value or the value an awaited call threw. */
  datatype Result<+R, +E> = Success(value: R) | Failure(error: E)

  /** A thrown value: an `Error` instance carries a message; anything else
      (a plain object such as an SDK operation error) does not. */
  datatype Thrown = ErrorObject(message: string) | OtherValue

  /** `!!x` for a `string | null | undefined`: null and "" are falsy. */
  predicate Truthy(x: Option<string>) {
    x.Some? && x.value != ""
  }

  /** `err instanceof Error ? err.message : fallback`, as every handler of
      the application turns a thrown value into the message it shows. */
  function ErrorMessage(t: Thrown, fallback: string): (m: string)
    ensures t.ErrorObject? ==> m == t.message
    ensures t.OtherValue? ==> m == fallback
  {
    match t
    case ErrorObject(msg) => msg
    case OtherValue => fallback
  }
}
