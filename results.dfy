/** Option and Result values used where the Python code returns None or raises. */
module Results {

  datatype Option<+T> = None | Some(value: T)

  /** `Ok(v)` is a normal return; `Err(e)` is the exception `e` propagating to the caller. */
  datatype Result<+T, +E> = Ok(value: T) | Err(error: E)
}
