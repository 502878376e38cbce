/** Optional values and fallible results, used where the Swift code has
    optionals (`T?`) and `throws`. */
module Wrappers {

  datatype Option<+T> = None | Some(value: T)

  datatype Result<+T, +E> = Ok(value: T) | Err(error: E)
}
