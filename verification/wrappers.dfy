/** Optional values, used where the Java code answers NaN or null. */
module Wrappers {

  datatype Option<+T> = None | Some(value: T)
}
