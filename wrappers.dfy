/** Option and Result values shared by every module of the model. A Python
    exception or a JavaScript `null` becomes one of these at the boundary. */
module Wrappers {

  datatype Option<+T> = None | Some(value: T)

  /** `Failure(e)` stands for a raised exception carrying `e`. */
  datatype Result<+T, +E> = Success(value: T) | Failure(error: E)
}
