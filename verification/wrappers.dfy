/** Python's `None` next to a value: the tag reader reports a missing tag as `None`. */
module Wrappers {
  datatype Option<+T> = None | Some(value: T)
}
