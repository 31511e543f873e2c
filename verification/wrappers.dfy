/** Optional values, for results the calculator cannot always produce. */
module Wrappers {

  datatype Option<+T> = None | Some(value: T)
}
