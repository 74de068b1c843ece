/** Optional values: an absent JSON field, an unset query parameter or session entry, a null token. */
module Wrappers {

  datatype Option<+T> = None | Some(value: T)
}
