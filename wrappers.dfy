/** Small failure-carrying datatypes shared by the other modules. */
module Wrappers {

  /** A value that may be absent: an optional field, a missing query parameter, an empty response body. */
  datatype Option<+T> = None | Some(value: T) {
    /** The value, or `default` when absent (the `x ?? default` of the source). */
    function GetOr(default: T): T {
      match this
      case Some(v) => v
      case None => default
    }
  }

  /** What a call to a collaborator over the network came back with: the value it answered,
      or a failure carrying the HTTP status of the error response when there was one
      (`error.response?.status`). */
  datatype Reply<+T> = Ok(value: T) | Failed(status: Option<int>)
}
