/** Failure-carrying result types shared by the whole model. */
module Wrappers {

  /** Python's `None` or a value. */
  datatype Option<T> = None | Some(value: T)

  /** A value, or the exception that the Python code raises instead. */
  datatype Result<T, E> = Ok(value: T) | Err(error: E)

  /** An operation that returns nothing, or the exception it raises. */
  datatype Outcome<E> = Pass | Fail(error: E)
}
