/** The optional value used for nullable component state (`string | null`, `T | null`). */
module Wrappers {
  datatype Option<+T> = None | Some(value: T)
}
