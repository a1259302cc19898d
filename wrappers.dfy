/**
 * Option and Result values shared by every module: Go's `(value, error)`
 * returns and nil references are modelled with these.
 */
module Wrappers {
  datatype Option<T> = None | Some(value: T)

  datatype Result<T, E> = Ok(value: T) | Err(error: E)
}
