/** The optional value used where an authored shape has no canonical record. */
module Wrappers {

  datatype Option<+T> = None | Some(value: T)
}
