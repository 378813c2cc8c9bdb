/** Failure-carrying datatypes shared by the store and the controller. */
module Results {

  /** A value that may be absent; stands for a Java reference that may be null. */
  datatype Option<+T> = None | Some(value: T)

  /** A value or the error that was raised instead of producing it. */
  datatype Result<+T, +E> = Success(value: T) | Failure(error: E)

  /** The outcome of a call that returns nothing but may raise an error. */
  datatype Outcome<+E> = Pass | Fail(error: E)
}
