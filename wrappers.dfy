/** The optional value that stands for JavaScript's undefined, null and thrown calls. */
module Wrappers {
  datatype Option<T> = None | Some(value: T)
}
