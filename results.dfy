/** The outcome of an operation that can throw: a value, or the exception it raised. */
module Results {

  datatype Result<+T, +E> = Success(value: T) | Failure(error: E)
}
