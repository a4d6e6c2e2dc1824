/** Optional values and the value-or-error outcome used in place of Python's
    `None` returns and raised exceptions. */
module Outcomes {

  datatype Option<+T> = None | Some(value: T)

  datatype Result<+T, +E> = Ok(value: T) | Err(error: E)
}
