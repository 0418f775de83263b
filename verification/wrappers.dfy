/** The optional value used for a storage read that may find nothing, a parse
    that may fail, and a property that may be missing from a parsed object. */
module Wrappers {

  datatype Option<+T> = None | Some(value: T)
}
