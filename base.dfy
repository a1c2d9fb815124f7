/** Option and Result: the model's stand-ins for Python's `None` returns and raised exceptions. */
module Base {

  datatype Option<+T> = None | Some(value: T)

  datatype Result<+T, +E> = Ok(value: T) | Err(error: E)
}
