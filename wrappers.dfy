/** Optional values: JavaScript's `null`/`undefined` versus a present value. */
module Wrappers {

  datatype Option<+T> = None | Some(value: T)

  /** A JavaScript string read from a JSON body is truthy when it is present and not empty. */
  predicate Truthy(s: Option<string>)
  {
    s.Some? && s.value != ""
  }
}
