/** Optional values, for the reads that DataView refuses with a RangeError. */
module Wrappers {

  datatype Option<+T> = None | Some(value: T)
}
