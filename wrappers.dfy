/** Option and Result: JavaScript's `undefined`/`null` alternatives and thrown errors. */
module Wrappers {

  /** `None` stands for a value that is absent (`undefined` or `null` in the source). */
  datatype Option<+T> = None | Some(value: T)

  /** `Failure` stands for an exception that the source throws. */
  datatype Result<+T, +E> = Success(value: T) | Failure(error: E)
}
