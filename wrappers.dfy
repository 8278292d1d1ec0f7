/** Java's nullable references, made explicit. */
module Wrappers {
  datatype Option<+T> = None | Some(value: T)
}
