/** The optional value used for attributes that Python leaves as `None`. */
module Wrappers {
  datatype Option<+T> = None | Some(value: T)
}
