/** Small value wrappers shared by every module of the model. */
module Basics {

  /** A value that may be missing: Python's `None` versus a present value. */
  datatype Option<+T> = None | Some(value: T) {
    function GetOr(default: T): T {
      match this
      case Some(v) => v
      case None => default
    }
  }

  /** The outcome of a step that the source may abort with an exception. */
  datatype Result<+T, +E> = Success(value: T) | Failure(error: E)

  /** The outcome of one call to the reasoner: its text, or the error it raised. */
  datatype Generated = Generated(text: string) | GenerationFailed(detail: string)

  function Min(a: int, b: int): int {
    if a <= b then a else b
  }
}
