/** Optional values. `None` stands for JavaScript's `NaN`, the result of
    `parseInt` on text that does not start with a number. */
module Wrappers {

  datatype Option<+T> = None | Some(value: T)
}
