/** Option and Result values, plus the outcome of a call that may have raised. */
module Wrappers {

  datatype Option<+T> = None | Some(value: T) {
    function GetOr(default: T): T {
      match this
      case Some(v) => v
      case None => default
    }
  }

  datatype Result<+R, +E> = Success(value: R) | Failure(error: E)

  /**
   * The outcome of one outbound call whose exception the caller swallows:
   * `Failed` stands for the exception (or a payload missing the expected keys),
   * `Fetched` for the data the call produced.
   */
  datatype Fetch<+T> = Failed | Fetched(items: T)
}
