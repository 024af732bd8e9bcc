/** Optional values: Java's `Optional`/nullable references and JavaScript's `null`. */
module Wrappers {
  datatype Option<+T> = None | Some(value: T)
}
