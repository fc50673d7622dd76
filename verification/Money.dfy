/** Amounts as the bank reads them: decimals quantized half-even to hundredths. */
module Money {
  import opened Contracts

  /** What `Decimal(text)` yields; a finite value is `coefficient * 10^exponent`. */
  datatype Decimal = Malformed | NaN | Infinite | Finite(coefficient: int, exponent: int)

  function Pow10(n: nat): (r: nat)
    ensures r >= 1
  {
    if n == 0 then 1 else 10 * Pow10(n - 1)
  }

  // The decimal context keeps 28 significant digits; quantize refuses more.
  const PRECISION: nat := 28

  /** `numerator / denominator` rounded to the nearest integer, ties to even. */
  function HalfEven(numerator: nat, denominator: nat): nat
    requires denominator > 0
  {
    var quotient, remainder := numerator / denominator, numerator % denominator;
    if 2 * remainder > denominator || (2 * remainder == denominator && quotient % 2 == 1) then quotient + 1
    else quotient
  }

  function Hundredths(coefficient: nat, exponent: int): nat {
    if exponent >= -2 then coefficient * Pow10(exponent + 2) else HalfEven(coefficient, Pow10(-2 - exponent))
  }

  /** `_amount`: a positive number of hundredths, or nothing. */
  function Amount(value: Decimal): (r: Option<nat>)
    ensures r.Some? ==> r.value > 0
  {
    match value
    case Malformed => None
    case NaN => None
    case Infinite => None
    case Finite(coefficient, exponent) =>
      if coefficient < 0 then None
      else
        var amount := Hundredths(coefficient, exponent);
        if amount >= Pow10(PRECISION) || amount == 0 then None else Some(amount)
  }

  lemma HalfEvenIsNearest(numerator: nat, denominator: nat)
    requires denominator > 0
    ensures var r := HalfEven(numerator, denominator);
      && 2 * (r * denominator - numerator) <= denominator
      && 2 * (numerator - r * denominator) <= denominator
      && (2 * (r * denominator - numerator) == denominator || 2 * (numerator - r * denominator) == denominator ==>
            r % 2 == 0)
  {
    var quotient, remainder := numerator / denominator, numerator % denominator;
    assert numerator == quotient * denominator + remainder;
    assert (quotient + 1) * denominator == quotient * denominator + denominator;
  }

  /**
   A text is accepted exactly when it is a finite value above half a hundredth that still fits the
   precision, and the accepted amount is the nearest number of hundredths, ties to even.
   */
  lemma AmountIsNearestHundredth(coefficient: int, exponent: int)
    requires exponent < -2
    ensures var unit := Pow10(-2 - exponent);
      var r := Amount(Finite(coefficient, exponent));
      && (r.Some? <==> coefficient >= 0 && 2 * coefficient > unit && HalfEven(coefficient, unit) < Pow10(PRECISION))
      && (r.Some? ==>
            && 2 * (r.value * unit - coefficient) <= unit && 2 * (coefficient - r.value * unit) <= unit
            && (2 * (r.value * unit - coefficient) == unit || 2 * (coefficient - r.value * unit) == unit ==>
                  r.value % 2 == 0))
  {
    if coefficient >= 0 {
      var unit := Pow10(-2 - exponent);
      HalfEvenIsNearest(coefficient, unit);
      HalfEvenZero(coefficient, unit);
    }
  }

  lemma HalfEvenZero(numerator: nat, denominator: nat)
    requires denominator > 0
    ensures HalfEven(numerator, denominator) == 0 <==> 2 * numerator <= denominator
  {
    var quotient, remainder := numerator / denominator, numerator % denominator;
    assert numerator == quotient * denominator + remainder;
    if quotient >= 1 {
      assert quotient * denominator >= denominator;
    }
  }
}
