/** Option and Result, used by every other module. */
module Common {

  datatype Option<+T> = None | Some(value: T)

  /** The outcome of a service call: what it does, or the exception it raises. */
  datatype Result<+T, +E> = Ok(value: T) | Err(error: E)
}
