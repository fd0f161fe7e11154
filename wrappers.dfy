/** The optional value that stands for Python's `None` default of a class attribute. */
module Wrappers {

  datatype Option<+T> = None | Some(value: T)
}
