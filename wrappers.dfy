/** Optional values: the model's reading of a TypeScript field declared with `?`. */
module Wrappers {

  datatype Option<+T> = None | Some(value: T)
}
