/** Option and Result: the optional values and the thrown exceptions of the booking services. */
module Wrappers {

  /** A value that may be `undefined` or `null` in the source. */
  datatype Option<+T> = None | Some(value: T)

  /** A computation that returns a value or throws; usable with `:-`. */
  datatype Result<+T, +E> = Ok(value: T) | Err(error: E) {

    predicate IsFailure() {
      Err?
    }

    function PropagateFailure<U>(): Result<U, E>
      requires Err?
    {
      Err(error)
    }

    function Extract(): T
      requires Ok?
    {
      value
    }
  }
}
