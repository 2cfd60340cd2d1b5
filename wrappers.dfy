/** The optional value used where the page reads something that may be `undefined`. */
module Wrappers {

  datatype Option<+T> = None | Some(value: T)
}
