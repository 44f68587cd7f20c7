/** The optional value used wherever the source uses a nullable reference. */
module Wrappers {

  datatype Option<+T> = None | Some(value: T)
}
