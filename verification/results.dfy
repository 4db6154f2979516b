/** Failure-carrying wrappers used by the averaging node. */
module Results {

  /** The one error the node raises: an empty image collection. */
  datatype AverageError = NoInputImages

  /** The outcome of one averaging call: an image, or the error raised instead. */
  datatype Result<+T> = Ok(value: T) | Err(error: AverageError)

  /** A value that may not exist yet, such as the lazily created accumulator. */
  datatype Option<+T> = None | Some(value: T)
}
