/** The absent-or-present value used for the report's nullable fields. */
module Wrappers {

  datatype Option<+T> = None | Some(value: T)

  /** JavaScript's `x || fallback` on a nullable string: null and the empty
      string are both falsy and give the fallback. */
  function OrElse(o: Option<string>, fallback: string): (r: string)
    ensures r == fallback || (o == Some(r) && r != "")
    ensures o.Some? && o.value != "" ==> r == o.value
  {
    if o.Some? && o.value != "" then o.value else fallback
  }

  /** JavaScript truthiness of a nullable string. */
  predicate Truthy(o: Option<string>)
  {
    o.Some? && o.value != ""
  }
}
