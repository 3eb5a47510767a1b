/** The optional value used for the object keys a menu entry may lack. */
module Wrappers {

  datatype Option<+T> = None | Some(value: T)
}
