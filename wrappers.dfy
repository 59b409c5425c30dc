/** The optional value used wherever C returns NULL, -1 or leaves an out-parameter unwritten. */
module Wrappers {
  datatype Option<T> = None | Some(value: T)
}
