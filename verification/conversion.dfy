/** The two currency conversions of the token screen and the rates they use. */
module Conversion {
  import opened Amounts

  /** US dollars per DAU. */
  const DAU_TO_USD_RATE: real := 74755.13

  /** DAU per US dollar: the quotient 1 / 74755.13 as bignumber.js computes it,
      rounded half-up to its default 20 fractional digits. Nothing in this
      module depends on these digits beyond the rate being positive; in
      particular it is not an exact inverse of DAU_TO_USD_RATE. */
  const USD_TO_DAU_RATE: real := 0.00001337700837387347

  /** The shared body of both conversions: a falsy amount converts to 0, and
      any other amount is multiplied by the rate with no rounding at all (the
      `toFixed` calls that would round are disabled). A BigNumber 0 is truthy
      and multiplies to 0. No caller tests a conversion's result for
      truthiness, so its zero is written `Fin(0.0)`. */
  function Scale(amount: Amount, rate: real): (r: Amount)
    ensures IsFalsy(amount) ==> r == Fin(0.0)
    ensures amount.BigZero? ==> r == Fin(0.0)
    ensures amount.Fin? ==> r.Fin? && r.value == amount.value * rate
    ensures amount.Inf? && rate > 0.0 ==> r == amount
    ensures amount.Inf? && rate < 0.0 ==> r == Inf(!amount.negative)
    ensures amount.Inf? && rate == 0.0 ==> r.NaN?
  {
    if IsFalsy(amount) then Fin(0.0)
    else match amount
      case Fin(v) => Fin(v * rate)
      case Inf(negative) =>
        if rate > 0.0 then amount
        else if rate < 0.0 then Inf(!negative)
        else NaN
      case _ => Fin(0.0)
  }

  /** `convertUsdToDau` at its default rate, the only rate the component
      passes. */
  function ConvertUsdToDau(usd: Amount): (dau: Amount)
    ensures IsFalsy(usd) ==> dau == Fin(0.0)
    ensures usd.Fin? ==> dau == Fin(usd.value * USD_TO_DAU_RATE)
    ensures usd.Fin? && usd.value > 0.0 ==> dau.value > 0.0
    ensures usd.Inf? ==> dau == usd
  {
    Scale(usd, USD_TO_DAU_RATE)
  }

  /** `convertDauToUsd` at its default rate, the only rate the component
      passes. */
  function ConvertDauToUsd(dau: Amount): (usd: Amount)
    ensures IsFalsy(dau) ==> usd == Fin(0.0)
    ensures dau.Fin? ==> usd == Fin(dau.value * DAU_TO_USD_RATE)
    ensures dau.Fin? && dau.value > 0.0 ==> usd.value > 0.0
    ensures dau.Inf? ==> usd == dau
  {
    Scale(dau, DAU_TO_USD_RATE)
  }

  /** Converting loses nothing: scaling a finite amount by a positive rate and
      then by its exact reciprocal gives the amount back. A conversion that
      rounded to 18 or 2 places could not do this for every input. */
  lemma ScaleRoundTrip(amount: Amount, rate: real)
    requires amount.Fin? && rate > 0.0
    ensures Scale(Scale(amount, rate), 1.0 / rate) == amount
  {
  }

  /** Conversion by a positive rate keeps the sign of a finite amount: zero
      stays zero, positive stays positive, negative stays negative. */
  lemma ScaleKeepsSign(amount: Amount, rate: real)
    requires amount.Fin? && rate > 0.0
    ensures Scale(amount, rate).value == 0.0 <==> amount.value == 0.0
    ensures Scale(amount, rate).value > 0.0 <==> amount.value > 0.0
    ensures Scale(amount, rate).value < 0.0 <==> amount.value < 0.0
  {
  }

  /** Conversion by a positive rate preserves the order of finite amounts, so
      it is additive and monotone: converting the parts of an amount and adding
      them gives the conversion of the whole. */
  lemma ScaleAdditiveAndMonotone(a: real, b: real, rate: real)
    requires rate > 0.0
    ensures Scale(Fin(a + b), rate).value == Scale(Fin(a), rate).value + Scale(Fin(b), rate).value
    ensures a <= b ==> Scale(Fin(a), rate).value <= Scale(Fin(b), rate).value
  {
  }
}
