/** Option and Result: the nullable references and the thrown-or-returned
    outcomes of the C# code, written as values. */
module Wrappers {

  /** A C# nullable reference: `None` stands for `null`. */
  datatype Option<+T> = None | Some(value: T)

  /** An operation that either returns a value or throws. */
  datatype Result<+R, +E> = Success(value: R) | Failure(error: E)
}
