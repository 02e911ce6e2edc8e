/** Option and Result values shared by the modules of this model. */
module Wrappers {

  datatype Option<+T> = None | Some(value: T)

  /** A computation that either produced a value or stopped with an error, as an
      exception or a returned `error` does in the modelled code. */
  datatype Result<+T, +E> = Success(value: T) | Failure(error: E)
}
