/** Option and Result datatypes shared by the discovery and chat models. */
module Wrappers {

  /** An optional value: the model of Rust's `Option`. */
  datatype Option<+T> = None | Some(value: T)

  /** A success value or an error: the model of Rust's `Result`. */
  datatype Result<+T, +E> = Success(value: T) | Failure(error: E)
}
