/** Optional values, standing in for attributes that may still be `None`. */
module Wrappers {

  datatype Option<+T> = None | Some(value: T)
}
