/** Optional values, standing for Swift optionals that are not object references. */
module Wrappers {

  datatype Option<T> = None | Some(value: T)

}
