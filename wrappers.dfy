/** Optional values: `undefined`/`null` results of the TypeScript code. */
module Wrappers {

  datatype Option<+T> = None | Some(value: T)
}
