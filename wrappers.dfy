/** The optional value that Swift writes `T?`. */
module Wrappers {

  datatype Option<+T> = None | Some(value: T)

}
