/** Failure-carrying results: the Python code signals failure by raising
    (AssertionError, KeyError); the model returns the failure as a value. */
module Wrappers {

  /** A computed value or the error that stopped the computation. */
  datatype Result<T, E> = Ok(value: T) | Err(error: E)

  /** The outcome of a state-changing operation that returns nothing. */
  datatype Outcome<E> = Pass | Fail(error: E)
}
