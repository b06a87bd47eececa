/** Option stands for Kotlin's nullable types and for weak references that may have been cleared. */
module Wrappers {

  datatype Option<+T> = None | Some(value: T)
}
