/** The optional value used for Kotlin's `lateinit` and for branches that draw nothing. */
module Wrappers {
  datatype Option<+T> = None | Some(value: T)
}
