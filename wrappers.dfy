/** Option and Result wrappers used across the model. */
module Wrappers {
  datatype Option<T> = None | Some(value: T)

  /** The outcome of an operation that the server either completes or
    * abandons: a Go error value or a panic becomes `Err` with its message. */
  datatype Result<T> = Ok(value: T) | Err(error: string)
  {
    predicate IsFailure() { Err? }
  }
}
