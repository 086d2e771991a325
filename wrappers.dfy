/** Optional values, used for the links of JavaScript's optional chaining. */
module Wrappers {
  datatype Option<+T> = None | Some(value: T)
}
