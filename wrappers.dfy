/** Optional values and results with an error, as used by the connector model. */
module Wrappers {

  /** An optional field: `None` stands for a property that is `undefined` or `null`. */
  datatype Option<+T> = None | Some(value: T)

  /** The outcome of an operation that can throw. */
  datatype Result<+R, +E> = Success(value: R) | Failure(error: E)
}
