/** Optional values: a key of the audit record that is absent (or None)
    is modelled as `None`. */
module Wrappers {

  datatype Option<+T> = None | Some(value: T)
}
