/** Optional values: a ship id on a cell, a reply from the score service. */
module Wrappers {
  datatype Option<T> = None | Some(value: T)
}
