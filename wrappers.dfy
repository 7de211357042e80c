/** Option and Result: the null reference and the thrown exception of the modelled code, made explicit. */
module Wrappers {

  /** `None` stands for a null reference. */
  datatype Option<+T> = None | Some(value: T)

  /** `Failure` stands for an exception thrown instead of a normal return. */
  datatype Result<+R, +E> = Success(value: R) | Failure(error: E)
}
