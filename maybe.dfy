/** Optional values and results with an error, for the places where the
    source returns `None` or raises. */
module Maybe {

  datatype Option<+T> = None | Some(value: T)

  datatype Result<+T, +E> = Success(value: T) | Failure(error: E)
}
