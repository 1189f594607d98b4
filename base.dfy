/** Option and Result values shared by every module of the model. */
module Base {

  datatype Option<+T> = None | Some(value: T)

  /** An operation that either produces a value or fails with a message
      (the JavaScript code throws an Error carrying that message). */
  datatype Result<+T> = Success(value: T) | Failure(message: string)

  function Max(a: int, b: int): int
  {
    if a >= b then a else b
  }

  function Min(a: int, b: int): int
  {
    if a <= b then a else b
  }
}
