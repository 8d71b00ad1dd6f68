/** Optional values and results with an error, used wherever the finance
    tracker returns `null`, `NaN` or an `{ isValid: false, error }` record. */
module Basics {

  datatype Option<+T> = None | Some(value: T)

  datatype Result<+T, +E> = Ok(value: T) | Err(error: E)
}
