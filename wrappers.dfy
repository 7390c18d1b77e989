/** The optional value used where PHP returns either a result or `false`. */
module Wrappers {

  datatype Option<+T> = None | Some(value: T)
}
