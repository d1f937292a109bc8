/** The stable error vocabulary and the result type of every fallible operation. */
module Errors {

  datatype Option<+T> = None | Some(value: T)

  datatype Code =
    | InvalidArgument
    | Unauthenticated
    | PermissionDenied
    | NotFound
    | Conflict
    | StateInvalid
    | VersionConflict
    | QuotaExhausted
    | DeadlineExceeded
    | Unavailable
    | Internal

  /** A value or an error code; usable with `:-`. */
  datatype Result<+T> = Ok(value: T) | Err(code: Code) {
    predicate IsFailure() {
      Err?
    }

    function PropagateFailure<U>(): Result<U>
      requires Err?
    {
      Err(code)
    }

    function Extract(): T
      requires Ok?
    {
      value
    }
  }
}
