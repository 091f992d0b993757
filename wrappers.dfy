/** Option and result types shared by the other modules. */
module Wrappers {

  datatype Option<+T> = None | Some(value: T)

  /** The outcome of an operation that Python would abort by raising. */
  datatype Result<+T, +E> = Ok(value: T) | Err(error: E)
}
