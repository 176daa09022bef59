/** Option and Result, the shapes the modelled code uses for "no value" (Python's
    `None`) and for an operation that either yields a value or raises. */
module Results {

  datatype Option<+T> = None | Some(value: T)

  datatype Result<+T, +E> = Ok(value: T) | Err(error: E)
}
