/** The optional values of the source (`null`, `undefined`, an absent field). */
module Wrappers {

  datatype Option<+T> = None | Some(value: T)
}
