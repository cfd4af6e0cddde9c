/** Optional values: the scene's log container reference, which the host
    either holds or has set to null. */
module Wrappers {

  datatype Option<+T> = None | Some(value: T)

}
