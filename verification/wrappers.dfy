/** Optional values; `None` stands for SQL NULL in the lead table. */
module Wrappers {

  datatype Option<+T> = None | Some(value: T)
}
