/** Option and Result, the two failure-carrying datatypes every other module uses. */
module Wrappers {

  datatype Option<+T> = None | Some(value: T)

  /** Either a value or the error the source raises or throws instead of returning one. */
  datatype Result<+T, +E> = Ok(value: T) | Err(error: E)
}
