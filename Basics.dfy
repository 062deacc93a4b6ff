/** Small shared definitions: an optional value, truthiness, ASCII lower-casing, the 500 message. */
module Basics {

  /** A value that may be absent (a JavaScript field that is `undefined`). */
  datatype Option<T> = None | Some(value: T)

  /**
   * A JavaScript truthy string: present and not empty. This is both the
   * `!field` test of the route handlers and what Mongoose's `required`
   * validator accepts for a String path.
   */
  predicate Truthy(o: Option<string>)
  {
    o.Some? && o.value != ""
  }

  /** The message every handler sends with a 500. */
  const InternalError := "Internal server error"

  /** ASCII lower-casing of one character. */
  function LowerChar(c: char): char
  {
    if 'A' <= c <= 'Z' then (c as int + 32) as char else c
  }

  /** `String.prototype.toLowerCase`, restricted to ASCII letters. */
  function Lower(s: string): string
  {
    seq(|s|, i requires 0 <= i < |s| => LowerChar(s[i]))
  }
}
