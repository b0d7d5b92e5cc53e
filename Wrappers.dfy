/** Optional values: the Python `None` of an omitted argument, and SQL NULL. */
module Wrappers {

  datatype Option<+T> = None | Some(value: T)

}
