/** Optional values: `None` stands for Go's nil (a nil error, an absent result). */
module Wrappers {

  datatype Option<+T> = None | Some(value: T)
}
