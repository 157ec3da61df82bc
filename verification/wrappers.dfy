/** Optional values: the model of TypeScript's `T | null` and of an absent (`undefined`) field. */
module Wrappers {

  datatype Option<+T> = None | Some(value: T)
}
