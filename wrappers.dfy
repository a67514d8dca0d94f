/** Optional values, standing for the source's `T | null` results. */
module Wrappers {

  datatype Option<+T> = None | Some(value: T)

}
