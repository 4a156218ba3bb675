/** Failure-carrying datatypes shared by every module of the model. */
module Wrappers {

  /** A value that may be absent: JavaScript's `null`/`undefined` on the fields that allow it. */
  datatype Option<+T> = None | Some(value: T) {
    function GetOr(default: T): T {
      match this
      case Some(v) => v
      case None => default
    }
  }

  /** A promise that resolves with `value` or rejects with `error`. */
  datatype Result<+R, +E> = Success(value: R) | Failure(error: E)

  /**
   * A thrown JavaScript value, seen through the two ways the code reads it:
   * `message` is `err.message` (absent for values that are not Error objects)
   * and `shown` is the template-literal rendering `${err}`.
   */
  datatype Fault = Fault(message: Option<string>, shown: string)

  /** `new Error(m)`: its message is `m` and `${err}` renders as "Error: m". */
  function NewError(m: string): (f: Fault)
    ensures f.message == Some(m)
  {
    Fault(Some(m), "Error: " + m)
  }

  /** The text a template literal produces for `err.message`: "undefined" when it is missing. */
  function MessageText(f: Fault): string {
    match f.message
    case Some(m) => m
    case None => "undefined"
  }
}
