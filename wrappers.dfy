/** Option and Result, the two failure-carrying types the framework is built on. */
module Wrappers {

  datatype Option<+T> = None | Some(value: T)

  /** `Result<T, E>`: every future in the framework resolves to one of these. */
  datatype Result<+T, +E> = Ok(value: T) | Err(error: E)
}
