/** Outcome types shared by the models. */
module Prelude {

  datatype Option<+T> = None | Some(value: T)

  /** A Go `(value, error)` return: exactly one of the two is meaningful. */
  datatype Result<+T, +E> = Ok(value: T) | Err(error: E)
}
