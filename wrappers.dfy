/** Optional values, used for nullable results and for the outcome of parsing a URL. */
module Wrappers {

  datatype Option<+T> = None | Some(value: T)
}
