/** Failure-carrying wrappers shared by every module of the model. */
module Base {

  /** A value that may be absent: a nil value, a missing map entry. */
  datatype Option<T> = None | Some(value: T)

  /** A Go `(value, error)` pair: exactly one of the two is meaningful. */
  datatype Result<T, E> = Ok(value: T) | Err(error: E)
}
