/** Optional values: a configuration line that yields no entry, a list
    widget without a current item. */
module Wrappers {

  datatype Option<+T> = None | Some(value: T)
}
