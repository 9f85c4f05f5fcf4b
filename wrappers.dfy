/** Optional values: a JavaScript `undefined`/`null`, a thrown parse error or a provider call that failed. */
module Wrappers {
  datatype Option<+T> = None | Some(value: T)
}
