/** Failure-carrying datatypes shared by the event-bus model. */
module Wrappers {

  /** An optional value; `None` also stands for "this call threw". */
  datatype Option<+T> = None | Some(value: T) {

    /** The value, or `default` when absent (JavaScript's default parameter). */
    function GetOr(default: T): T {
      match this
      case Some(v) => v
      case None => default
    }
  }

  /** The outcome of an operation that either returns a value or throws an error. */
  datatype Result<+R, +E> = Success(value: R) | Failure(error: E)
}
