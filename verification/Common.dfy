/** Small datatypes shared by every module. */
module Common {

  datatype Option<+T> = None | Some(value: T)

  /** A returned value, or the exception the call raised. */
  datatype Result<+T, +E> = Ok(value: T) | Err(error: E)
}
