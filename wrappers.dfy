/** Optional values, standing in for JavaScript's `undefined` where a
    computation may produce nothing. */
module Wrappers {

  datatype Option<+T> = None | Some(value: T)
}
