/** Optional values: `None` stands for JavaScript's "no value" (undefined, null, or NaN from a failed parse). */
module Wrappers {

  datatype Option<T> = None | Some(value: T)
}
