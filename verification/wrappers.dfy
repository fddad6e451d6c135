/** The optional value used wherever the pipeline returns `None` or a value. */
module Wrappers {

  datatype Option<+T> = None | Some(value: T)
}
