/** Option and Result values standing for Python's `None` and for raised exceptions. */
module Wrappers {

  /** A value that may be absent (`None` in the source). */
  datatype Option<+T> = None | Some(value: T) {

    /** The carried value, or `default` when absent (`dict.get(key, default)`). */
    function GetOr(default: T): T {
      match this
      case Some(v) => v
      case None => default
    }
  }

  /** Either a value or a raised exception; `error` stands for the exception's message, approximated by a fixed text. */
  datatype Result<+T> = Success(value: T) | Failure(error: string)

  /** The outcome of a call that returns nothing but may raise. */
  datatype Outcome = Pass | Fail(error: string)
}
