/** Option, Result and Outcome: the model's stand-ins for Java's null and thrown exceptions. */
module Wrappers {

  datatype Option<+T> = None | Some(value: T) {
    /** The value, or `default` when absent (Java's `Optional.orElse`). */
    function GetOr(default: T): T {
      match this
      case Some(v) => v
      case None => default
    }
  }

  datatype Result<+R, +E> = Success(value: R) | Failure(error: E)

  /** The outcome of a customizer that either completes or throws. */
  datatype Outcome<+E> = Pass | Fail(error: E)
}

/** The exceptions the modelled code throws or lets escape. */
module Errors {

  datatype Error =
    | IllegalState(message: string)
      // IllegalStateException raised by the code itself
    | IllegalArgument(message: string)
      // IllegalArgumentException raised by a build container asked for an unknown id
    | NullPointer(what: string)
      // a null reference dereferenced by the code
    | NoSuchElement(message: string)
      // an empty Optional asked for its value
    | ResolutionUnavailable(groupId: string, artifactId: string, version: string)
      // the BOM at these coordinates could not be resolved at all
}
