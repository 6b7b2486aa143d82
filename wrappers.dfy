/** Optional values, used where the source returns `undefined`/`null` or skips an action. */
module Wrappers {
  datatype Option<+T> = None | Some(value: T)
}
