/** Failure-carrying datatypes shared by the whole model. */
module Wrappers {

  /** An optional value: the model's stand-in for a Go nil pointer or a missing entry. */
  datatype Option<+T> = None | Some(value: T) {

    /** The wrapped value, or `default` when there is none. */
    function GetOr(default: T): T {
      match this
      case Some(v) => v
      case None => default
    }
  }

  /** A value or an error, as a Go function returning `(T, error)` is used by its callers. */
  datatype Result<+T, +E> = Success(value: T) | Failure(error: E)

  /** A call that returns only an `error` in Go: nil, or a failure value. */
  datatype Outcome<+E> = Pass | Fail(error: E)
}
