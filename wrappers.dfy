/** The optional value used wherever retell_bridge.py has a value or `None`. */
module Wrappers {
  datatype Option<T> = None | Some(value: T)
}
