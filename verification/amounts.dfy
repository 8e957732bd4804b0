/** Values the token screen stores for an amount: what the amount input binds
    (nothing yet, or a JavaScript number) and what bignumber.js builds from it.
    bignumber.js is arbitrary-precision decimal, so a finite value is an exact
    `real` here. */
module Amounts {

  /** An amount as the component holds it. `Unset` is the `null` the input
      starts with (and the empty input); `NaN` and `Inf` are the non-finite
      values that both JavaScript numbers and bignumber.js can hold; `Fin` is
      a finite decimal. `BigZero` is the object `new BigNumber(0)` the
      component stores when it resets an amount: it is worth 0 but, being an
      object, it is truthy where the number 0 is falsy. */
  datatype Amount = Unset | NaN | Inf(negative: bool) | Fin(value: real) | BigZero

  /** JavaScript falsiness of an entered value: null, NaN and the number 0
      are falsy, every other number and every BigNumber object is truthy. */
  predicate IsFalsy(a: Amount) {
    a.Unset? || a.NaN? || (a.Fin? && a.value == 0.0)
  }

  /** `new BigNumber(a)`: null does not parse and becomes NaN; any other value
      is taken over as it is. */
  function ToBigNumber(a: Amount): (b: Amount)
    ensures !b.Unset?
    ensures b.NaN? <==> (a.Unset? || a.NaN?)
    ensures !a.Unset? ==> b == a
  {
    if a.Unset? then NaN else a
  }

  /** The global `isNaN(a)`: the value is first coerced to a number, and null
      coerces to 0. */
  predicate GlobalIsNaN(a: Amount) {
    a.NaN?
  }

  /** The global `isFinite(a)`, with the same coercion. */
  predicate GlobalIsFinite(a: Amount) {
    a.Unset? || a.Fin? || a.BigZero?
  }

  /** The relational `a > x` of a raw value against a number: null coerces
      to 0 and NaN compares false. */
  predicate GreaterThan(a: Amount, x: real) {
    match a
    case Unset => 0.0 > x
    case NaN => false
    case Inf(negative) => !negative
    case Fin(v) => v > x
    case BigZero => 0.0 > x
  }

  /** bignumber.js `isNaN()`. */
  predicate BigIsNaN(b: Amount) {
    b.NaN? || b.Unset?
  }

  /** bignumber.js `isFinite()`. */
  predicate BigIsFinite(b: Amount) {
    b.Fin? || b.BigZero?
  }

  /** bignumber.js `isNegative()`: true for negative finite values and for
      negative infinity. */
  predicate BigIsNegative(b: Amount) {
    (b.Fin? && b.value < 0.0) || (b.Inf? && b.negative)
  }

  /** bignumber.js `isZero()`. */
  predicate BigIsZero(b: Amount) {
    (b.Fin? && b.value == 0.0) || b.BigZero?
  }

  /** bignumber.js `lessThanOrEqualTo(x)`: false for NaN. */
  predicate BigLessOrEqual(b: Amount, x: real) {
    match b
    case Unset => false
    case NaN => false
    case Inf(negative) => negative
    case Fin(v) => v <= x
    case BigZero => 0.0 <= x
  }

  /** bignumber.js `minus(x)` of a finite `x`: NaN and the infinities absorb
      it, and null is NaN. */
  function BigMinus(b: Amount, x: real): (r: Amount)
    ensures (b.Fin? || b.BigZero?) <==> r.Fin?
    ensures b.Fin? ==> r.value + x == b.value
    ensures b.BigZero? ==> r.value + x == 0.0
    ensures b.Inf? ==> r == b
    ensures (b.NaN? || b.Unset?) ==> r.NaN?
  {
    match b
    case Unset => NaN
    case NaN => NaN
    case Inf(_) => b
    case Fin(v) => Fin(v - x)
    case BigZero => Fin(0.0 - x)
  }
}
