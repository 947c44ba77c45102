/** The optional value used where the plugin's Java code may see `null`. */
module Wrappers {

  datatype Option<+T> = None | Some(value: T)
}
