/** An optional value: a lookup either finds something or it does not. */
module Wrappers {

  datatype Option<T> = None | Some(value: T)
}
