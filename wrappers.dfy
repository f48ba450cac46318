/** Option and Result: the absent value and the thrown error of the source, as data. */
module Wrappers {

  datatype Option<+T> = None | Some(value: T) {
    function GetOr(default: T): T {
      match this
      case Some(v) => v
      case None => default
    }
  }

  datatype Result<+R, +E> = Success(value: R) | Failure(error: E)

  /**
   * A value thrown inside a route handler and caught by its `catch`: an
   * `Error` the application raises with its own message, or one the runtime
   * or a library raises, whose message the model does not fix.
   */
  datatype Thrown = Raised(message: string) | EngineError
}
