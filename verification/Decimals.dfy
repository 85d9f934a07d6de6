/** Exact decimal numbers as the pricing code uses them: Python's Decimal as a digit tuple and an exponent, Fraction
    as a real number (cn_futures_bridge/terminal/pricing.py:56-64). */
module Decimals {

  type Digit = d: nat | d < 10

  /** Decimal((0, digits, exponent)); signs do not occur, negative inputs are rejected before. */
  datatype Decimal = Decimal(digits: seq<Digit>, exponent: int)

  /** x times ten to the power e. */
  function Scale(x: real, e: int): real
    decreases if e < 0 then -e else e
  {
    if e == 0 then x else if e > 0 then 10.0 * Scale(x, e - 1) else Scale(x, e + 1) / 10.0
  }

  function Fold(digits: seq<Digit>): nat {
    if digits == [] then 0 else Fold(digits[..|digits| - 1]) * 10 + digits[|digits| - 1]
  }

  /** Fraction(decimal). */
  function Value(d: Decimal): real {
    Scale(Fold(d.digits) as real, d.exponent)
  }

  /** tuple(int(digit) for digit in str(n)). */
  function DigitsOf(n: nat): (digits: seq<Digit>)
    ensures digits != []
  {
    if n < 10 then [n] else DigitsOf(n / 10) + [n % 10]
  }

  lemma {:induction false} FoldDigits(n: nat)
    ensures Fold(DigitsOf(n)) == n
    ensures n != 0 ==> DigitsOf(n)[0] != 0
  {
    if n >= 10 {
      FoldDigits(n / 10);
      assert DigitsOf(n)[..|DigitsOf(n)| - 1] == DigitsOf(n / 10);
    }
  }

  /** Re-reading the digits of any number without leading zeros gives the digits back: str and the fold are inverse. */
  lemma {:induction false} DigitsFold(digits: seq<Digit>)
    requires digits != [] && (|digits| > 1 ==> digits[0] != 0)
    ensures DigitsOf(Fold(digits)) == digits
    ensures |digits| > 1 ==> Fold(digits) >= 10
  {
    if |digits| > 1 {
      var front := digits[..|digits| - 1];
      DigitsFold(front);
      assert Fold(front) >= 1 by { if |front| == 1 { assert front[..0] == []; } }
      assert digits == front + [digits[|digits| - 1]];
    } else {
      assert digits[..0] == [];
    }
  }

  /** What a decimal is worth: digits read as usual, and the exponent is a power of ten. */
  lemma ValueIsPositional(digits: seq<Digit>, digit: Digit, exponent: int)
    ensures Value(Decimal([], 0)) == 0.0
    ensures Value(Decimal(digits + [digit], 0)) == 10.0 * Value(Decimal(digits, 0)) + digit as real
    ensures Value(Decimal(digits, exponent + 1)) == 10.0 * Value(Decimal(digits, exponent))
  {
    assert (digits + [digit])[..|digits|] == digits;
  }

  lemma {:induction false} ScaleIsLinear(factor: real, x: real, e: int)
    ensures Scale(factor * x, e) == factor * Scale(x, e)
    decreases if e < 0 then -e else e
  {
    if e != 0 { ScaleIsLinear(factor, x, if e > 0 then e - 1 else e + 1); }
  }

  lemma ValueOfDigits(n: nat, exponent: int)
    ensures Value(Decimal(DigitsOf(n), exponent)) == Scale(n as real, exponent)
  {
    FoldDigits(n);
  }

  /** units * tick, spelled as repeated addition: the proofs below stay linear. */
  function Ticks(units: int, tick: real): real
    decreases if units < 0 then -units else units
  {
    if units == 0 then 0.0 else if units > 0 then Ticks(units - 1, tick) + tick else Ticks(units + 1, tick) - tick
  }

  lemma {:induction false} TicksIsProduct(units: int, tick: real)
    ensures Ticks(units, tick) == units as real * tick
    decreases if units < 0 then -units else units
  {
    if units != 0 { TicksIsProduct(if units > 0 then units - 1 else units + 1, tick); }
  }

  lemma ProductAsReal(a: nat, b: nat)
    ensures (a * b) as real == a as real * b as real
  {
  }

  lemma ScaledProduct(units: nat, coefficient: real, product: real, e: int)
    requires product == units as real * coefficient
    ensures Scale(product, e) == Ticks(units, Scale(coefficient, e))
  {
    ScaleIsLinear(units as real, coefficient, e);
    TicksIsProduct(units, Scale(coefficient, e));
  }

  lemma ProductIsExact(units: nat, coefficient: nat, exponent: int)
    ensures Value(Decimal(DigitsOf(units * coefficient), exponent))
            == Ticks(units, Scale(coefficient as real, exponent))
  {
    ValueOfDigits(units * coefficient, exponent);
    ProductAsReal(units, coefficient);
    ScaledProduct(units, coefficient as real, (units * coefficient) as real, exponent);
  }

  /** The decimal with `units` ticks, built on the coefficient of the tick: exact for any number of digits. */
  function TickMultiple(units: nat, tick: Decimal): (price: Decimal)
    ensures Value(price) == Ticks(units, Value(tick))
  {
    ProductIsExact(units, Fold(tick.digits), tick.exponent);
    Decimal(DigitsOf(units * Fold(tick.digits)), tick.exponent)
  }

  method BuildTickMultiple(units: nat, tick: Decimal) returns (price: Decimal)
    ensures price == TickMultiple(units, tick)
  {
    var coefficient: nat := 0;
    for i := 0 to |tick.digits|
      invariant coefficient == Fold(tick.digits[..i])
    {
      assert tick.digits[..i + 1][..i] == tick.digits[..i];
      coefficient := coefficient * 10 + tick.digits[i];
    }
    assert tick.digits[..|tick.digits|] == tick.digits;
    price := Decimal(DigitsOf(units * coefficient), tick.exponent);
  }
}
