/** The optional-value wrapper used by the rule builder and the registry. */
module Wrappers {

  datatype Option<+T> = None | Some(value: T)
}
