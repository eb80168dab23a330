/** A JavaScript value that may be absent (`undefined`, `null`, `NaN`). */
module Wrappers {

  datatype Option<+T> = None | Some(value: T)
}
