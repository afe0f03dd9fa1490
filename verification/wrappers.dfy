/** Optional values, standing in for the null pointers and "not found"
    results of the C++ code. */
module Wrappers {

  datatype Option<+T> = None | Some(value: T)
}
