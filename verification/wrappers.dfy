/** Failure-carrying datatypes shared by the handlers of both applications. */
module Wrappers {

  /** A value that may be absent: Python's `None` versus a present value. */
  datatype Option<+T> = None | Some(value: T) {

    /** The present value, or `default` when absent (Python's `dict.get(key, default)` shape). */
    function GetOr(default: T): (r: T)
      ensures Some? ==> r == value
      ensures None? ==> r == default
    {
      match this
      case Some(v) => v
      case None => default
    }
  }

  /** The outcome of a handler: the successful value or the error it reports. */
  datatype Result<+R, +E> = Success(value: R) | Failure(error: E)
}
