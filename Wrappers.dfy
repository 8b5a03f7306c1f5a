/** Optional values, standing for the `undefined`/`null` cases of the TypeScript code. */
module Wrappers {

  datatype Option<+T> = None | Some(value: T)
}
