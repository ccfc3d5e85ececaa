/** The optional value used for the nullable columns of a feedback row. */
module Wrappers {

  /** A field that may be missing (`null`/`undefined` in the row). */
  datatype Option<+T> = None | Some(value: T)
}
