/** Option and Result values shared by every module of the model. A Python
    function that may return None becomes an Option; one that may raise
    becomes a Result whose Failure carries the reason. */
module Wrappers {
  datatype Option<T> = None | Some(value: T)

  datatype Result<T, E> = Success(value: T) | Failure(error: E)
}
