/** The optional value used where the source has `null` (no saved plan, no file). */
module Wrappers {
  datatype Option<+T> = None | Some(value: T)
}
