/** Failure-carrying values shared by the response encoders and the log sink. */
module Results {

  /** Go's `(T, error)` pair: either a value or the error a call returned. */
  datatype Result<T> = Ok(value: T) | Err(error: string)

  /** An optional value; `None` plays the role of Go's nil. */
  datatype Option<T> = None | Some(value: T)
}
