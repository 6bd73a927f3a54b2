/** Optional values, shared by every module of the model. */
module Wrappers {

  /** A value that may be absent: JavaScript's `undefined`/`null` and Python's `None`. */
  datatype Option<+T> = None | Some(value: T) {

    /** The value, or `default` when absent. */
    function GetOr(default: T): T {
      match this
      case Some(v) => v
      case None => default
    }
  }

  /** The outcome of an operation that can fail with a message: a thrown `Error`, a raised exception. */
  datatype Result<+T> = Success(value: T) | Failure(error: string)

  /**
   * One field of a partial update as pydantic's `model_dump(exclude_unset=True)`
   * sees it: left out of the request, or sent (possibly as `null`).
   */
  datatype Patch<+T> = Unset | Set(value: T)
}
