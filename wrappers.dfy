/** Option and Result values used for absence markers and build errors. */
module Wrappers {

  /** The absence marker of attribute lookups (Python's None). */
  datatype Option<+T> = None | Some(value: T)

  /** The outcome of a build step: a value, or the error that aborts the build. */
  datatype Result<+R, +E> = Ok(value: R) | Err(error: E) {
    predicate IsFailure() { Err? }

    function PropagateFailure<U>(): Result<U, E>
      requires Err?
    {
      Err(error)
    }

    function Extract(): R
      requires Ok?
    {
      value
    }
  }
}
