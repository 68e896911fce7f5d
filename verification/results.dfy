/** Optional values and success-or-error results shared by the other modules. */
module Results {

  /** A value that may be absent, such as an input field left empty. */
  datatype Option<+T> = None | Some(value: T)

  /** Either a computed value or the error that stopped the computation. */
  datatype Result<+T, +E> = Success(value: T) | Failure(error: E)
}
