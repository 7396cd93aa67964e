/** The optional value used wherever the program may or may not have a value:
    a parsed date, a cell's value, the contents of the message file. */
module Wrappers {
  datatype Option<+T> = None | Some(value: T)
}
