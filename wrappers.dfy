/** The optional value used for Python attributes that may be `None` or not defined at all. */
module Wrappers {

  datatype Option<+T> = None | Some(value: T)

}
