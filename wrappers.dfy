/** The optional value used for the `null`-able strings of the widget. */
module Wrappers {
  datatype Option<+T> = None | Some(value: T)
}
