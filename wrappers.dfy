/** Optional values: a getter or field read that may fail, a lookup that may miss. */
module Wrappers {

  datatype Option<+T> = None | Some(value: T)
}
