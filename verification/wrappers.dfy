/** Failure-carrying wrappers used by the handler model: a partial lookup
    yields an Option, an operation that can throw yields a Result. */
module Wrappers {

  /** The result of a lookup that may find nothing. */
  datatype Option<+T> = None | Some(value: T) {

    /** The found value, or `default` when nothing was found. */
    function GetOr(default: T): T
    {
      match this
      case Some(v) => v
      case None => default
    }
  }

  /** The result of an operation that either produces a value or fails with an error. */
  datatype Result<+R, +E> = Success(value: R) | Failure(error: E)
}
