/** Failure-aware wrappers shared by every module. */
module Common {
  datatype Option<+T> = None | Some(value: T)

  /** The application error codes that the modelled operations can return. */
  datatype Error = Invalid | NotFound | Conflict | Unavailable | Internal

  datatype Result<+T> = Success(value: T) | Failure(error: Error)

  /** The answer of a remote write: an error may be reported before or after the write took effect. */
  datatype Reply = Ok | Lost(applied: bool) {
    predicate Applied() {
      Ok? || applied
    }
  }
}
