/** Option and Result: the values the model returns where the Rust code returns
    `Option` / `Result` or panics. */
module Wrappers {

  datatype Option<+T> = None | Some(value: T)

  datatype Result<+R, +E> = Success(value: R) | Failure(error: E)
}
