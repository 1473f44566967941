/** Option and Result, the failure-carrying wrappers used throughout the model. */
module Results {

  /** An optional value: `None` stands for JavaScript's `null` slot or a missing field. */
  datatype Option<+T> = None | Some(value: T)

  /** The outcome of an operation that can throw: `Failure` carries what was thrown. */
  datatype Result<+T, +E> = Success(value: T) | Failure(error: E)
}
