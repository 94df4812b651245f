/** Optional values: the model's stand-in for the source's `null` / `undefined`. */
module Wrappers {

  datatype Option<+T> = None | Some(value: T)

  /** JavaScript truthiness of a `string | null`: both `null` and the empty string are falsy. */
  predicate Truthy(s: Option<string>)
  {
    s.Some? && s.value != ""
  }
}
