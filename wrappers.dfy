/** Shared helper datatypes. */
module Wrappers {

  /** A value that may be absent (a JavaScript `null`/`undefined`, a PHP `null`). */
  datatype Option<+T> = None | Some(value: T)
}
