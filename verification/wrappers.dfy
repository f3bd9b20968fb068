/** Failure-compatible wrappers: a value that may be absent, and a result that may be an error. */
module Wrappers {

  /** An optional value: the model's counterpart of a TypeScript `T | undefined` or `T | null`. */
  datatype Option<+T> = None | Some(value: T) {

    /** The wrapped value, or `default` when there is none. */
    function GetOr(default: T): T {
      match this
      case Some(v) => v
      case None => default
    }
  }

  /** The outcome of an operation that either produces a value or raises an error. */
  datatype Result<+R, +E> = Success(value: R) | Failure(error: E)
}
