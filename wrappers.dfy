/** Option and Result types shared by the other modules. */
module Wrappers {

  datatype Option<+T> = None | Some(value: T)

  /** The outcome of an operation that can raise: `Err` carries the exception kind. */
  datatype Result<+T, +E> = Ok(value: T) | Err(error: E)
}
