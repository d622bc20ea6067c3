/** Optional values: a JavaScript field that may be null or undefined. */
module Wrappers {

  datatype Option<+T> = None | Some(value: T)

  /** JavaScript truthiness of an optional string: null, undefined and "" are falsy. */
  predicate Truthy(o: Option<string>)
  {
    o.Some? && o.value != ""
  }
}
