/** Small value wrappers shared by every module of the model. */
module Wrappers {

  /** A value that may be absent: TypeScript's `T | undefined` and `T | null`. */
  datatype Option<+T> = None | Some(value: T) {
    function GetOr(default: T): T {
      match this
      case Some(v) => v
      case None => default
    }
  }

  /** One field of a `Partial<T>` update: the key is either missing from the
      update object (`Keep`) or present with a value (`Put`).  For an optional
      field the value is itself an Option, so `{ flagReason: undefined }` is
      `Put(None)`, which clears the field under object spread. */
  datatype Change<+T> = Keep | Put(value: T) {
    function ApplyTo(current: T): T {
      match this
      case Keep => current
      case Put(v) => v
    }
  }
}
