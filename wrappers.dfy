/** Optional values: a document field that may be absent (undefined in the store). */
module Wrappers {

  datatype Option<+T> = None | Some(value: T)
}
