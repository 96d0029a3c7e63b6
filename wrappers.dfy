/** Optional values: `None` stands for a JavaScript `undefined` member. */
module Wrappers {
  datatype Option<+T> = None | Some(value: T)
}
