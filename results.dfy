/** Option and Result wrappers used for the loader's error paths. */
module Results {

  datatype Option<+T> = None | Some(value: T)

  /** The outcome of an operation that the source ends by returning a value or raising. */
  datatype Result<+T, +E> = Ok(value: T) | Err(error: E)
}
