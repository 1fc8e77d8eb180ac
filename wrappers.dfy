/** Option and Result: the model's stand-ins for Go's nil pointers and (value, error) pairs. */
module Wrappers {

  datatype Option<+T> = None | Some(value: T)

  datatype Result<+T, +E> = Ok(value: T) | Err(error: E)

  /** The value half of a Go `(value, error)` pair: the zero value on error. */
  function ValueOr<T, E>(r: Result<T, E>, zero: T): T {
    match r
    case Ok(v) => v
    case Err(_) => zero
  }

  /** The error half of a Go `(value, error)` pair: nil on success. */
  function ErrorOf<T, E>(r: Result<T, E>): Option<E> {
    match r
    case Ok(_) => None
    case Err(e) => Some(e)
  }
}
