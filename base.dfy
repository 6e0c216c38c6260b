/** Failure-carrying wrappers shared by the meal model. */
module Base {

  /** A value that may be absent (JavaScript `undefined`/`null`, a missing document). */
  datatype Option<T> = None | Some(value: T)

  /** The outcome of an operation that may fail with an error of type E. */
  datatype Result<T, E> = Ok(value: T) | Err(error: E)
}
