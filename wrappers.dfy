/** Optional values: a field that a request body may omit, a lookup that may miss. */
module Wrappers {

  datatype Option<+T> = None | Some(value: T)

}
