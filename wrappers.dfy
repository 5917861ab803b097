/** The optional-value datatype used for settings that may be absent (Python's None). */
module Wrappers {
  datatype Option<+T> = None | Some(value: T)
}
