/** Option and Result values for the absent keys, `None` arguments and
    raised exceptions of the modelled Python code. */
module Wrappers {

  datatype Option<+T> = None | Some(value: T) {
    function GetOr(default: T): T {
      match this
      case Some(v) => v
      case None => default
    }
  }

  /** A call that either returns a value or raises an error. */
  datatype Result<+R, +E> = Success(value: R) | Failure(error: E)

  /** A call that returns nothing or raises an error. */
  datatype Outcome<+E> = Pass | Fail(error: E)
}
