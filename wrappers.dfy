/** Option and Result, the two wrappers the model uses for Java's null and exceptions. */
module Wrappers {

  /** A value that may be absent: Java's null reference for a value-like object. */
  datatype Option<+T> = None | Some(value: T)

  /** The outcome of an operation that may throw: `Err` carries what would have been thrown. */
  datatype Result<+T, +E> = Ok(value: T) | Err(error: E) {

    predicate IsFailure() {
      Err?
    }

    function PropagateFailure<U>(): Result<U, E>
      requires Err?
    {
      Err(error)
    }

    function Extract(): T
      requires Ok?
    {
      value
    }
  }
}
