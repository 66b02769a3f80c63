/** The optional value used where the listener's fields may still be unset (Java `null`). */
module Wrappers {

  datatype Option<+T> = None | Some(value: T)
}
