/** Option and Result, the two failure-carrying shapes the model uses for
    Rust's `Option<T>` / `Result<T, E>` and Kotlin's nullable values. */
module Wrappers {

  datatype Option<+T> = None | Some(value: T)

  datatype Result<+T, +E> = Success(value: T) | Failure(error: E)
}
