/** Optional values and results: the model's stand-ins for Python's None and
    for an operation that either returns or raises an exception with a message. */
module Wrappers {

  datatype Option<+T> = None | Some(value: T)

  /** `Err(message)` is a raised exception; `message` is what `str(e)` gives. */
  datatype Result<+T> = Ok(value: T) | Err(message: string)
}
