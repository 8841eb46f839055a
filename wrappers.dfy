/** Optional values, used for the nullable fields of the source's records. */
module Wrappers {

  datatype Option<+T> = None | Some(value: T)

}
