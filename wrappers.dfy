/** Option and Result, the two failure-carrying wrappers the model uses. */
module Wrappers {

  /** `None` stands for JavaScript's `undefined` (a missing property, a thrown parse). */
  datatype Option<+T> = None | Some(value: T) {
    function GetOr(default: T): T
    {
      match this
      case Some(v) => v
      case None => default
    }
  }

  /** The outcome of one request: the decoded value, or the message shown to the user. */
  datatype Result<+R, +E> = Ok(value: R) | Err(error: E)
}
