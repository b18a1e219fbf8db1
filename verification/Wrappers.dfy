/** The one shape of an absent value, shared by every module. */
module Wrappers {
  datatype Option<+T> = None | Some(value: T)
}
