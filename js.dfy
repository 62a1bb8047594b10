/** The few pieces of JavaScript semantics that the application's logic depends on:
    values that a `catch` clause can receive, properties that may be missing,
    falsy strings, numbers that may become `NaN`, the regular-expression class
    `\s` and the UTF-16 length reported by `String.prototype.length`. */
module Js {

  datatype Option<+T> = None | Some(value: T) {
    /** `value ?? default` */
    function GetOr(default: T): T {
      match this
      case Some(v) => v
      case None => default
    }
  }

  datatype Result<+T, +E> = Success(value: T) | Failure(error: E)

  /** The outcome of an awaited call that returns nothing: it either resolves
      or rejects with an `Error` carrying a message. */
  datatype Outcome = Pass | Fail(message: string)

  /** What a `catch (error)` clause receives: an `Error` instance, with its
      `name` (`'ValidationException'`, `'NotAuthorizedException'`, ...) and
      its `message`, or any other thrown value. */
  datatype Thrown = Error(name: string, message: string) | NonError

  /** A possibly missing string property in a boolean context: `undefined`
      and `''` are falsy, every other string is truthy. */
  predicate Truthy(s: Option<string>) {
    s.Some? && s.value != ""
  }

  /** `a || b` where `a` is a possibly missing string. */
  function Or(a: Option<string>, b: string): string {
    if Truthy(a) then a.value else b
  }

  /** A JavaScript number as far as the metadata record uses it: an integer,
      or `NaN`, which is what `undefined + 1` evaluates to. */
  datatype Num = Finite(n: int) | NaN

  /** `x + 1` where `x` may be a missing property. */
  function PlusOne(x: Option<Num>): (r: Num)
    ensures r.Finite? <==> x.Some? && x.value.Finite?
    ensures r.Finite? ==> r.n == x.value.n + 1
  {
    match x
    case Some(Finite(k)) => Finite(k + 1)
    case _ => NaN
  }

  /** The characters matched by `\s` in a JavaScript regular expression
      (the ECMAScript WhiteSpace and LineTerminator code points). */
  predicate IsSpace(c: char) {
    || c == ' ' || c == '\t' || c == '\n' || c == '\U{B}' || c == '\U{C}' || c == '\r'
    || c == '\U{A0}' || c == '\U{1680}' || ('\U{2000}' <= c <= '\U{200A}')
    || c == '\U{2028}' || c == '\U{2029}' || c == '\U{202F}' || c == '\U{205F}'
    || c == '\U{3000}' || c == '\U{FEFF}'
  }

  /** `s.length`: JavaScript counts UTF-16 code units, so a character outside
      the Basic Multilingual Plane counts twice. */
  function Utf16Length(s: string): (n: nat)
    ensures |s| <= n <= 2 * |s|
    ensures (forall i :: 0 <= i < |s| ==> s[i] <= '\U{FFFF}') ==> n == |s|
  {
    if s == [] then 0
    else (if s[0] <= '\U{FFFF}' then 1 else 2) + Utf16Length(s[1..])
  }
}
