/** The conventional optional value, used where the source has `null`, `undefined` or `NaN`. */
module Wrappers {

  datatype Option<+T> = None | Some(value: T)
}
