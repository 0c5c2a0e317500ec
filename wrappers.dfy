/** Option and Result, the shapes the Rust code uses for absent values and
    `Result<T, E>` returns. */
module Wrappers {

  datatype Option<+T> = None | Some(value: T)

  datatype Result<+T, +E> = Ok(value: T) | Err(error: E)
}
