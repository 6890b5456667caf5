/** Option and Result types used for Python's `Optional[...]` values and for
    operations that either return a value or raise. */
module Results {

  datatype Option<+T> = None | Some(value: T)

  datatype Result<+R, +E> = Success(value: R) | Failure(error: E)
}
