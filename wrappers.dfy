/** Optional values: an absent field of a record, a missing query parameter,
    a number that did not parse. */
module Wrappers {

  datatype Option<+T> = None | Some(value: T)
}
