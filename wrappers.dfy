/** JavaScript's `null`/absent field and Python's `None`, as a value. */
module Wrappers {

  datatype Option<+T> = None | Some(value: T)

}
