/** Optional values and success-or-error results, as the backend's
    `None` returns and raised validation errors are modelled. */
module Wrappers {

  datatype Option<+T> = None | Some(value: T)

  datatype Result<+R, +E> = Ok(value: R) | Err(error: E)
}
