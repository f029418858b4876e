/** Optional values, used for JavaScript `undefined`, Python `None` and absent dictionary keys. */
module Wrappers {

  datatype Option<+T> = None | Some(value: T)
}
