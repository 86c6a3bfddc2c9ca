/** Optional values and pass/fail outcomes, standing in for C# nulls and exceptions. */
module Wrappers {

  /** A value that may be absent: a null reference in the source. */
  datatype Option<+T> = None | Some(value: T)

  /** The end of a step that either completes or raises an error. */
  datatype Outcome<+E> = Pass | Fail(error: E)
}
