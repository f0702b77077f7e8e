/** An optional argument and a success-or-error outcome, shared by the other modules. */
module Outcomes {

  /**
   * An optional value. In this model `None` stands for a Kotlin argument
   * that the caller left out, so that its default applies.
   */
  datatype Option<+T> = None | Some(value: T) {

    /** The wrapped value, or `default` when there is none. */
    function GetOr(default: T): T {
      match this
      case Some(v) => v
      case None => default
    }
  }

  /** The outcome of an operation that either succeeds or throws. */
  datatype Result<+R, +E> = Success(value: R) | Failure(error: E)
}
