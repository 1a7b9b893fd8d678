/** Optional values, used for payload-ignoring calls and for dispatch that does not finish. */
module Wrappers {

  datatype Option<+T> = None | Some(value: T)
}
