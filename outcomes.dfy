/** Optional values and results that carry an error instead of a value. */
module Outcomes {

  datatype Option<+T> = None | Some(value: T)

  /** A value, or the error that prevented computing it (Go's `(value, error)` pair). */
  datatype Result<+T, +E> = Ok(value: T) | Err(error: E) {

    predicate IsFailure() {
      Err?
    }

    function PropagateFailure<U>(): Result<U, E>
      requires Err?
    {
      Err(error)
    }

    function Extract(): T
      requires Ok?
    {
      value
    }
  }
}
