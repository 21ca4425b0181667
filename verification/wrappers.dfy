/** The two failure-carrying shapes the game's code returns: `Option` for lookups
    that may find nothing and `Result` for constructors that may reject their input. */
module Wrappers {

  datatype Option<+T> = None | Some(value: T)

  datatype Result<+T, +E> = Success(value: T) | Failure(error: E)
}
