/** The Some/None datatype used wherever the source relies on a reference being null. */
module Wrappers {
  datatype Option<+T> = None | Some(value: T)
}
