/** Failure-compatible wrappers used across the model: `Option` stands for a
    JavaScript value that may be null or absent, `Result` for an operation that
    either returns or throws. */
module Wrappers {

  datatype Option<+T> = None | Some(value: T)

  datatype Result<+R, +E> = Success(value: R) | Failure(error: E)
}
