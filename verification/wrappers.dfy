/** The conventional Option datatype, used for parsers that may fail. */
module Wrappers {

  datatype Option<+T> = None | Some(value: T)
}
