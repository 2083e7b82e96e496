/** Failure-carrying results for the places where the Python source raises. */
module Results {

  datatype Result<+T, +E> = Ok(value: T) | Err(error: E)
}
