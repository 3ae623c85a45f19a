/** Option: a value that may be absent. Used for Python's "attribute not set",
    for a failed conversion, and for a function that returns nothing. */
module Wrappers {

  datatype Option<+T> = None | Some(value: T)

}
