/** Optional values, for the `None` the service's cache lookup returns on a miss. */
module Wrappers {

  datatype Option<+T> = None | Some(value: T)
}
