/** The optional-value wrapper used for the schema's one optional field. */
module Wrappers {
  datatype Option<+T> = None | Some(value: T)
}
