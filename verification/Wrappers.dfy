/** Optional values: the counterpart of the source's nil pointers and comma-ok results. */
module Wrappers {
  datatype Option<+T> = None | Some(value: T)
}
