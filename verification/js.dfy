/** The few pieces of JavaScript value semantics the send-email tool relies on. */
module Js {
  import opened Wrappers

  /** JavaScript truthiness of a possibly-undefined string: `undefined` and
      the empty string are falsy, every other string is truthy. */
  predicate Truthy(s: Option<string>) {
    s.Some? && s.value != ""
  }

  /** The nullish-coalescing operator `a ?? b`: `b` only when `a` is `undefined`.
      Unlike truthiness, an empty string on the left is kept. */
  function Coalesce<T>(a: Option<T>, b: Option<T>): Option<T> {
    if a.Some? then a else b
  }
}
