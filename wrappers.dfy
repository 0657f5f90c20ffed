// Optional values and fallible results, the two shapes the engine's
// Rust code uses for "maybe a value" and "a value or an error".
module Wrappers {
  datatype Option<T> = None | Some(value: T)

  datatype Result<T, E> = Ok(value: T) | Err(error: E)
}
