/** The optional value used for Python's `None`-or-string filter argument and for parse results. */
module Wrappers {

  datatype Option<+T> = None | Some(value: T)
}
