/** Option and Result: the model's stand-ins for Java's null references and
    for methods that either return a value or throw. */
module Wrappers {

  /** A possibly-null reference. */
  datatype Option<+T> = None | Some(value: T)

  /** The value of a call that returns normally (Success) or throws (Failure). */
  datatype Result<+R, +E> = Success(value: R) | Failure(error: E)
}
