/** Option and Result values shared by the format resolver and the style builder. */
module Results {

  datatype Option<+T> = None | Some(value: T)

  /** The outcome of an operation that can be rejected. */
  datatype Result<+T, +E> = Ok(value: T) | Err(error: E)
}
