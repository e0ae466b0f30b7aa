/** An optional value: Java's null and Python's None on the model side. */
module Wrappers {
  datatype Option<T> = None | Some(value: T)
}
