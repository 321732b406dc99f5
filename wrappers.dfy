/** The optional-value wrapper used for Java's nullable results and for calls that may throw. */
module Wrappers {

  datatype Option<+T> = None | Some(value: T)
}
