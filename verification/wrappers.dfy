/** Optional values: `None` stands for a missing session field or for the
    NaN that `parseInt` yields on text that is not a number. */
module Wrappers {

  datatype Option<+T> = None | Some(value: T)

}
