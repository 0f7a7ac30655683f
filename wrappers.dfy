/** Optional values: the model's stand-in for JavaScript's `false`/`undefined`
    sentinels, made explicit. */
module Wrappers {

  datatype Option<+T> = None | Some(value: T)
}
