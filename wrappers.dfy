/** An optional value, standing for a Kotlin nullable result. */
module Wrappers {

  datatype Option<+T> = None | Some(value: T)
}
