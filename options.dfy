/** Optional values and results, the model's stand-ins for Python's `None` and for an exception. */
module Options {

  datatype Option<+T> = None | Some(value: T)

  datatype Result<+T, +E> = Ok(value: T) | Err(error: E)
}
