/** Option and Result, the two failure-carrying shapes the modelled code uses:
    JavaScript `null`/`undefined` and Rust `Option` become Option, Rust
    `Result<_, String>` and a rejected promise become Result. */
module Wrappers {

  datatype Option<+T> = None | Some(value: T)

  datatype Result<+T, +E> = Ok(value: T) | Err(error: E)
}
