/** Optional values, as Swift's `T?`. */
module Options {

  datatype Option<+T> = None | Some(value: T) {

    /** Swift's `??`: the wrapped value, or `default` when there is none. */
    function GetOr(default: T): T {
      match this
      case Some(v) => v
      case None => default
    }
  }
}

/** The error values that cross the store, the providers and the editor. */
module Errors {

  /** An underlying framework error (an `NSError`): domain, code and localized description. */
  datatype Cause = Cause(domain: string, code: int, description: string)

  /** The store's own error enum: the addressed task is missing, or Core Data failed underneath. */
  datatype TaskError = TaskNotFound | OperationFailed(cause: Cause)

  /** Swift's `Error` existential, restricted to the two kinds of value the core produces. */
  datatype Error = StoreError(taskError: TaskError) | Framework(cause: Cause)

  /** `Result<Void, Error>`, the value every completion handler receives. */
  datatype Outcome = Success | Failure(error: Error)
}
