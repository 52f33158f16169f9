/** Option and Result, the shapes the source expresses with `undefined`/`null`
    and with thrown errors. */
module Wrappers {

  datatype Option<+T> = None | Some(value: T) {
    /** `value ?? fallback` */
    function GetOr(fallback: T): T {
      match this
      case Some(v) => v
      case None => fallback
    }
  }

  datatype Result<+R, +E> = Success(value: R) | Failure(error: E)

  /** The outcome of a `void` method that may throw. */
  datatype Outcome<+E> = Pass | Fail(error: E)
}
