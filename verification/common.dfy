/** Types shared by every part of the model. */
module Common {

  datatype Option<+T> = None | Some(value: T)

  /** How a call ends in the modelled code: it returns a value, or the task
      fails (Rust's `fail`, an `assert!`, `.get()` on `None`, an index out of
      bounds) with a reason. */
  datatype Outcome<+T> = Done(value: T) | Fail(reason: string)

  /** The whitespace characters that `is_whitespace` and `trim` recognise
      (the ASCII subset: space, tab, line feed, vertical tab, form feed,
      carriage return). */
  predicate IsWhitespaceChar(c: char) {
    c == ' ' || c == '\t' || c == '\n' || c == '\r' || c == '\U{B}' || c == '\U{C}'
  }

  /** True of a string made only of whitespace, including the empty string. */
  predicate IsWhitespace(s: string) {
    forall i :: 0 <= i < |s| ==> IsWhitespaceChar(s[i])
  }
}
