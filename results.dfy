/** Failure-compatible result types used to model Python exceptions as values. */
module Results {

  /** The conventional Some/None datatype. */
  datatype Option<+T> = None | Some(value: T)

  /** Either the value an operation returns or the exception it raises. */
  datatype Result<+T, +E> = Ok(value: T) | Err(error: E) {

    predicate IsFailure() {
      Err?
    }

    function PropagateFailure<U>(): Result<U, E>
      requires Err?
    {
      Err(error)
    }

    function Extract(): T
      requires Ok?
    {
      value
    }
  }

  /** The outcome of an operation that returns nothing (Python's `-> None`) or raises. */
  datatype Outcome<+E> = Pass | Fail(error: E)
}
