/** Optional values: a request-body field that was not sent, or a path id that did not parse. */
module Wrappers {
  datatype Option<+T> = None | Some(value: T)
}
