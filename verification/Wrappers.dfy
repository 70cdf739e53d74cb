/** Failure-carrying results shared by every component. */
module Wrappers {
  datatype Option<+T> = None | Some(value: T)

  /** A thrown error of the source is an `Err`. */
  datatype Result<+T, +E> = Ok(value: T) | Err(error: E) {
    predicate IsFailure() {
      Err?
    }

    function PropagateFailure<U>(): Result<U, E>
      requires Err?
    {
      Err(error)
    }

    function Extract(): T
      requires Ok?
    {
      value
    }
  }
}
