/**
 * Small JavaScript-flavoured building blocks shared by every module:
 * optional values (`undefined`), results of calls that may throw, and
 * JavaScript truthiness for the optional strings and numbers the app tests
 * with `!x` and `x || y`.
 */
module Js {

  /** A value that may be `undefined` or `null`. */
  datatype Option<T> = None | Some(value: T) {
    function GetOr(default: T): T {
      if Some? then value else default
    }
  }

  /** The outcome of a call that either returns a value or throws. */
  datatype Result<T, E> = Ok(value: T) | Err(error: E)

  /** `!!s` for an optional string: `undefined`, `null` and "" are falsy. */
  predicate Truthy(s: Option<string>) {
    s.Some? && s.value != ""
  }

  /** `!!n` for an optional number: `undefined`, `null` and 0 are falsy. */
  predicate TruthyNumber(n: Option<real>) {
    n.Some? && n.value != 0.0
  }

  /**
   * `a || b` where `b` is a string literal: the result is empty only when
   * both sides are, so a non-empty fallback always gives a non-empty text.
   */
  function Or(a: Option<string>, b: string): (r: string)
    ensures r == "" <==> !Truthy(a) && b == ""
    ensures Truthy(a) ==> r == a.value
    ensures !Truthy(a) ==> r == b
  {
    if Truthy(a) then a.value else b
  }
}
