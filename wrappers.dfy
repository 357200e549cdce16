/** An optional value, for the line item's optional quantity text. */
module Wrappers {
  datatype Option<+T> = None | Some(value: T)
}
