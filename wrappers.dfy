/** Optional values: Java's nullable references (a `Long` that may be null, a `String` argument that may be null). */
module Wrappers {

  datatype Option<+T> = None | Some(value: T)
}
