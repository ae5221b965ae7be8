/** The outcome of a call that either returns a value or raises an exception. */
module Wrappers {

  /** `Ok` carries what the call returned, `Err` the exception it raised.
      Failure-compatible, so `var x :- e; ...` stops at the first `Err`, as a
      Python `raise` stops the function that executes it. */
  datatype Result<+T, +E> = Ok(value: T) | Err(error: E) {

    predicate IsFailure() {
      Err?
    }

    function PropagateFailure<U>(): Result<U, E>
      requires Err?
    {
      Err(error)
    }

    function Extract(): T
      requires Ok?
    {
      value
    }
  }
}
