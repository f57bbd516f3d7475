/** Optional values, for the places where the daemon may have nothing to give. */
module Wrappers {

  datatype Option<+T> = None | Some(value: T)

}
