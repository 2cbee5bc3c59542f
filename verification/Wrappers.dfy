/** The usual value-or-nothing type, standing for JavaScript's `null`/`undefined` and for an absent Redis field. */
module Wrappers {
  datatype Option<+T> = None | Some(value: T)
}
