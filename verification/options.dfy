/** Optional values and results with an error side, the shapes of Go's
    `(value, ok)` and `(value, error)` returns. */
module Options {

  datatype Option<+T> = None | Some(value: T)

  datatype Result<+T, +E> = Success(value: T) | Failure(error: E)
}
