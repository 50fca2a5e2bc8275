/** Failure-compatible wrappers used for fetch results and parse outcomes. */
module Wrappers {

  /** A value that may be missing: a fetch that produced nothing, a field
      that is absent or null, a lookup that found nothing. */
  datatype Option<+T> = None | Some(value: T)

  /** The outcome of a validate-or-throw step: the parsed value or the error
      the source would throw. */
  datatype Result<+R, +E> = Success(value: R) | Failure(error: E) {
    predicate IsFailure() {
      Failure?
    }

    function PropagateFailure<U>(): Result<U, E>
      requires Failure?
    {
      Failure(error)
    }

    function Extract(): R
      requires Success?
    {
      value
    }
  }
}
