/** Optional values and results with an error, for the operations of the
    billing notifier that raise an exception in `billing/app.py`. */
module Wrappers {

  datatype Option<+T> = None | Some(value: T)

  datatype Result<+T, +E> = Success(value: T) | Failure(error: E)
}
