/** Option and Result values used throughout the model in place of
    JavaScript's `undefined` and thrown errors. */
module Wrappers {

  datatype Option<+T> = None | Some(value: T) {
    function GetOr(default: T): T {
      match this
      case Some(v) => v
      case None => default
    }
  }

  /** `Failure` carries the message of the Error a JavaScript function throws
      or a Promise rejects with. */
  datatype Result<+T> = Success(value: T) | Failure(error: string)
}
