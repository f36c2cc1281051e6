/// The optional-value and success-or-failure types shared by the other
/// modules.
module Wrappers {

  datatype Option<+T> = None | Some(value: T)

  /// The outcome of an operation that may stop with an error.
  datatype Result<+T, +E> = Ok(value: T) | Err(error: E)
}
