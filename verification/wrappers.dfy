/** Optional values and success-or-error outcomes, used for the source's `None`
    and for the exceptions it raises. */
module Wrappers {

  datatype Option<+T> = None | Some(value: T)

  /** The outcome of an operation that returns nothing: it either completes or
      raises the error carried by `Fail`. */
  datatype Outcome<+E> = Pass | Fail(error: E)
}
