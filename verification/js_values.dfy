/**
 This module models the few JavaScript value rules the reporter relies on:
 an optional value (`T | undefined`), a result that is either a value or an
 error, string truthiness, and the `||` operator on optional strings and on
 optional numbers.
 */
module JsValues {

  /** A value that may be `undefined`. */
  datatype Option<+T> = None | Some(value: T) {

    /** Returns the value, or `default` when the value is undefined. */
    function GetOr(default: T): T {
      match this
      case Some(v) => v
      case None => default
    }
  }

  /** Either a value or the error a JavaScript `throw` would raise. */
  datatype Result<+R, +E> = Success(value: R) | Failure(error: E)

  /** A JavaScript `string | undefined`. */
  type JsString = Option<string>

  /** JavaScript truthiness of a `string | undefined`: both `undefined` and `""` are falsy. */
  predicate Truthy(v: JsString) {
    v.Some? && v.value != ""
  }

  /** JavaScript `a || b` on two `string | undefined` operands: the left operand
      when it is truthy, otherwise the right operand exactly as it is (even when
      the right operand is itself falsy). */
  function Or(a: JsString, b: JsString): JsString {
    if Truthy(a) then a else b
  }

  /** JavaScript `a || fallback` where the fallback is a plain string. */
  function OrElse(a: JsString, fallback: string): string {
    if Truthy(a) then a.value else fallback
  }

  /** JavaScript `n || 0` on a `number | null | undefined` that holds an integer
      (`null` and `undefined` are both modelled as `None`). */
  function OrZero(n: Option<int>): int {
    match n
    case Some(v) => if v != 0 then v else 0
    case None => 0
  }

  /** `||` yields a truthy value exactly when one of its operands is truthy. */
  lemma OrTruthy(a: JsString, b: JsString)
    ensures Truthy(Or(a, b)) <==> Truthy(a) || Truthy(b)
  {
  }

  /** `||` never invents a value: its result is one of its two operands, and it
      is undefined only when the left operand is falsy and the right one undefined. */
  lemma OrPicksAnOperand(a: JsString, b: JsString)
    ensures Or(a, b) == a || Or(a, b) == b
    ensures Or(a, b).None? <==> !Truthy(a) && b.None?
  {
  }

  /** `n || 0` on an integer is the integer itself when it is present: the only
      falsy integer is 0, which `|| 0` maps to itself. */
  lemma OrZeroKeepsIntegers(n: Option<int>)
    ensures OrZero(n) == n.GetOr(0)
  {
  }
}
