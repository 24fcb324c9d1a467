/** Optional values: a field the document may lack, a lookup that may miss. */
module Wrappers {
  datatype Option<+T> = None | Some(value: T)
}
