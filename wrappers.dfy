/** Optional values: the model's stand-in for JavaScript `null` and `undefined`. */
module Wrappers {

  datatype Option<+T> = None | Some(value: T)
}
