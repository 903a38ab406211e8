/** The optional value used wherever the source returns `T | undefined` or `T | null`. */
module Wrappers {

  datatype Option<+T> = None | Some(value: T)

}
