/** Optional values and results with an error, used across the model. */
module Maybe {

  /** A value that may be missing: an unset option, an exhausted draw queue. */
  datatype Option<+T> = None | Some(value: T)

  /** The outcome of an operation that can fail, such as building the rules. */
  datatype Result<+T, +E> = Success(value: T) | Failure(error: E)
}
