/** Small value wrappers shared by the whole model. */
module Wrappers {

  datatype Option<+T> = None | Some(value: T) {
    function GetOr(default: T): T {
      match this
      case Some(v) => v
      case None => default
    }
  }

  datatype Result<+R, +E> = Success(value: R) | Failure(error: E)

  /** A field of a JSON request body as the server sees it after destructuring:
      absent (`undefined`), an explicit `null`, or a value. */
  datatype Supplied<+T> = Omitted | JsonNull | Given(value: T)
}
