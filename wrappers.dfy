/** An optional value: a lookup that finds nothing, or a decision that changes nothing. */
module Wrappers {

  datatype Option<T> = None | Some(value: T)
}
