/** The optional value used wherever the source returns `Optional` or may hold `null`. */
module Wrappers {

  datatype Option<+T> = None | Some(value: T)
}
