/** Optional values: `None` stands for TypeScript's `undefined` and `null`,
    `Some(v)` for a present value. */
module Wrappers {

  datatype Option<+T> = None | Some(value: T)
}
