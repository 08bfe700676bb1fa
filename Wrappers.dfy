/** Optional values and success/failure results, as the Swift code uses
    `Double?` and `throws`. */
module Wrappers {

  datatype Option<+T> = None | Some(value: T)

  datatype Result<+T, +E> = Ok(value: T) | Err(error: E)
}
