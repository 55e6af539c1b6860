/** Optional values: a JavaScript property that may be absent, or a numeric parse that may fail. */
module Wrappers {

  datatype Option<+T> = None | Some(value: T)
}
