/** Optional values, used for nullable spreadsheet cells and for steps that can fail. */
module Wrappers {

  datatype Option<+T> = None | Some(value: T)

}
