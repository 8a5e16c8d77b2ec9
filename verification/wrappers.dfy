/** Optional values: the model's rendering of TypeScript's `T | null` and of a key that may be absent. */
module Wrappers {
  datatype Option<+T> = None | Some(value: T)
}
