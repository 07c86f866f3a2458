/** Option and result types standing in for C# nullable values and thrown exceptions. */
module Wrappers {
  datatype Option<T> = None | Some(value: T)

  /** The outcome of an operation that either returns a value or throws `error`. */
  datatype Result<T, E> = Ok(value: T) | Err(error: E)

  /** The outcome of an operation that returns nothing or throws `error`. */
  datatype Outcome<E> = Pass | Fail(error: E)
}
