/** Small failure-carrying datatypes shared by the rest of the model. */
module Common {

  /** A value that may be absent: Python's `None`, or pandas' missing marker. */
  datatype Option<+T> = None | Some(value: T)

  /** Either a computed value or the error that Python would raise instead. */
  datatype Result<+T, +E> = Ok(value: T) | Err(error: E)
}
