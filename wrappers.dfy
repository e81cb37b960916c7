/** Optional values: Go's nil-able interface results and error returns. */
module Wrappers {

  datatype Option<+T> = None | Some(value: T)

}
