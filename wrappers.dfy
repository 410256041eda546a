/** Option, used wherever the Java code returns or stores a possibly-null value. */
module Wrappers {

  datatype Option<+T> = None | Some(value: T)
}
