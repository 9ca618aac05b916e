/** Datatypes every other module shares. */
module Common {

  /** An optional value: TypeScript's `T | null`, Go's pointer or comma-ok result. */
  datatype Option<+T> = None | Some(value: T)

  /** The helper's writeState: written, or written and its chmod fails, or the old file stays. */
  datatype Write = WriteDone | ChmodFails | WriteFails
}
