/** The few JavaScript values the modules inspect, and the error kinds of
    lib/errors.js. */
module Js {

  /** A JavaScript value as far as the modules look into it. `Number` holds
      an unbounded integer, where JavaScript has doubles: fractions, NaN,
      infinities, precision past 2^53 and exponent notation from 10^21 are
      not modelled. `Text` is a sequence of Unicode characters, where
      JavaScript counts UTF-16 code units. `Object` stands for any object or array whose contents
      are not inspected (it is always truthy). */
  datatype Value = Undefined | Null | Bool(b: bool) | Number(n: int) | Text(s: string) | Object

  /** JavaScript truthiness: `undefined`, `null`, `false`, `0` and `""` are falsy. */
  predicate Truthy(v: Value)
  {
    match v
    case Undefined => false
    case Null => false
    case Bool(b) => b
    case Number(n) => n != 0
    case Text(s) => s != ""
    case Object => true
  }
}

module Errors {

  /** One constructor per message of lib/errors.js. */
  datatype Error = SessionInvalid | CspInvalidPolicy | CsrfTokenMismatch | CsrfTokenMissing
}
