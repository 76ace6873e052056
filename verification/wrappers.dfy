/** The optional value used wherever the storefront code has `null`, `NaN` or "no result". */
module Wrappers {
  datatype Option<+T> = None | Some(value: T)
}
