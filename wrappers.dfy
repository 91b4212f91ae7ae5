/** The absent-or-present value used for Ruby's `nil`-returning lookups. */
module Wrappers {

  datatype Option<+T> = None | Some(value: T)
}
