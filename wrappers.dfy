/** Failure-carrying results shared by every module of the model. */
module Wrappers {

  /** A value that may be absent: a missing dictionary entry, a regular-expression
      search with no match, or a floating-point result that would be NaN. */
  datatype Option<+T> = None | Some(value: T)

  /** The outcome of an operation whose failure the source reports by an exception
      or an error return. */
  datatype Result<+T, +E> = Ok(value: T) | Err(error: E) {

    predicate IsFailure() {
      Err?
    }

    function PropagateFailure<U>(): Result<U, E>
      requires Err?
    {
      Err(error)
    }

    function Extract(): T
      requires Ok?
    {
      value
    }
  }
}
