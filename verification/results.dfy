/** Optional values and success-or-failure outcomes shared by the other modules. */
module Results {

  /** A value that may be absent: an unset Python variable, a missing dict key, a failed conversion. */
  datatype Option<+T> = None | Some(value: T)

  /** The outcome of an operation that can raise: `Failure` carries the exception it raised. */
  datatype Result<+T, +E> = Success(value: T) | Failure(error: E)
}
