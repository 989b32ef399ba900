/** Optional values and results, standing in for Java's nullable references and exceptions. */
module Base {

  /** A value that may be absent, as a Java reference that may be null. */
  datatype Option<+T> = None | Some(value: T)

  /** The outcome of an operation that either returns a value or fails. */
  datatype Result<+T, +E> = Success(value: T) | Failure(error: E)
}
