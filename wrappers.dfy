/** Option and Result, the two failure-carrying shapes the loaders return. */
module Wrappers {

  datatype Option<+T> = None | Some(value: T)

  /** A loader either produces its data or throws; `Failure` stands for the throw. */
  datatype Result<+R, +E> = Success(value: R) | Failure(error: E)
}
