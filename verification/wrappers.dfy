/** Optional values, standing in for Java's nullable references. */
module Wrappers {

  /** `None` plays the part of Java's `null`. */
  datatype Option<+T> = None | Some(value: T)
}
