/**
 Amounts: decimals as (coefficient, exponent) pairs, the validators of
 internal/service/money.go, and the NUMERIC(38,18) column that stores them.
 */
module Money {
  import opened Options
  import opened Errors

  const MAX_DECIMAL_PLACES: int := 18

  /** 10^20 in units of 10^-18: the exclusive bound of a NUMERIC(38,18) column. */
  const MAX_UNITS: int := 100_000_000_000_000_000_000_000_000_000_000_000_000

  function Pow10(n: nat): (p: nat)
    ensures p > 0
  {
    if n == 0 then 1 else 10 * Pow10(n - 1)
  }

  lemma {:induction false} Pow10Add(m: nat, n: nat)
    ensures Pow10(m + n) == Pow10(m) * Pow10(n)
  {
    if m > 0 {
      Pow10Add(m - 1, n);
      assert Pow10(m + n) == 10 * Pow10(m - 1 + n);
      assert 10 * (Pow10(m - 1) * Pow10(n)) == (10 * Pow10(m - 1)) * Pow10(n);
    }
  }

  lemma MaxUnitsIsPow10()
    ensures Pow10(38) == MAX_UNITS
  {
    assert Pow10(4) == 10_000 by { assert Pow10(2) == 100; }
    assert Pow10(2) == 100;
    Pow10Add(4, 4);
    Pow10Add(8, 8);
    Pow10Add(16, 16);
    Pow10Add(32, 4);
    Pow10Add(36, 2);
  }

  // ----- decimal.Decimal -----

  /** coefficient * 10^exponent. */
  datatype Decimal = Decimal(coefficient: int, exponent: int)

  const MAX_VALUE := Decimal(1, 20)

  function Min(a: int, b: int): int { if a <= b then a else b }

  /** Rescaling to a smaller exponent multiplies the coefficient; it never loses digits. */
  function Rescale(d: Decimal, exponent: int): Decimal
    requires exponent <= d.exponent
  {
    Decimal(d.coefficient * Pow10(d.exponent - exponent), exponent)
  }

  function Sign(d: Decimal): int {
    if d.coefficient < 0 then -1 else if d.coefficient == 0 then 0 else 1
  }

  function Abs(d: Decimal): Decimal {
    if d.coefficient < 0 then Decimal(-d.coefficient, d.exponent) else d
  }

  function Add(a: Decimal, b: Decimal): Decimal {
    var e := Min(a.exponent, b.exponent);
    Decimal(Rescale(a, e).coefficient + Rescale(b, e).coefficient, e)
  }

  function Sub(a: Decimal, b: Decimal): Decimal {
    var e := Min(a.exponent, b.exponent);
    Decimal(Rescale(a, e).coefficient - Rescale(b, e).coefficient, e)
  }

  function Cmp(a: Decimal, b: Decimal): int {
    var e := Min(a.exponent, b.exponent);
    Rescale(a, e).coefficient - Rescale(b, e).coefficient
  }

  predicate LessThan(a: Decimal, b: Decimal) { Cmp(a, b) < 0 }

  predicate Equal(a: Decimal, b: Decimal) { Cmp(a, b) == 0 }

  predicate GreaterThanOrEqual(a: Decimal, b: Decimal) { Cmp(a, b) >= 0 }

  // ----- the validators -----

  function CheckRangeAndScale(v: Decimal): Option<Error> {
    if v.exponent < -MAX_DECIMAL_PLACES then Some(Sentinel(InvalidAmount))
    else if GreaterThanOrEqual(Abs(v), MAX_VALUE) then Some(Sentinel(InvalidAmount))
    else None
  }

  function ValidateAmount(amount: Decimal): Option<Error> {
    if Sign(amount) <= 0 then Some(Sentinel(InvalidAmount)) else CheckRangeAndScale(amount)
  }

  function ValidateInitialBalance(balance: Decimal): Option<Error> {
    if Sign(balance) < 0 then Some(Sentinel(InvalidAmount)) else CheckRangeAndScale(balance)
  }

  // ----- the stored column -----

  /** The number of 10^-18 units that a decimal of the column's scale denotes. */
  function Units(d: Decimal): int
    requires d.exponent >= -MAX_DECIMAL_PLACES
  {
    d.coefficient * Pow10(d.exponent + MAX_DECIMAL_PLACES)
  }

  /** Writing a decimal to NUMERIC(38,18): the value is rounded half away from zero to
      eighteen places, and refused when it does not fit. */
  function Store(d: Decimal): Option<int> {
    var units :=
      if d.exponent >= -MAX_DECIMAL_PLACES then Units(d)
      else RoundHalfAway(d.coefficient, Pow10(-MAX_DECIMAL_PLACES - d.exponent));
    if -MAX_UNITS < units < MAX_UNITS then Some(units) else None
  }

  function RoundHalfAway(n: int, divisor: nat): int
    requires divisor > 0
  {
    if n >= 0 then (2 * n + divisor) / (2 * divisor) else -((2 * -n + divisor) / (2 * divisor))
  }

  /** The nearest integer to n / divisor; of two that are equally near, the one further from zero. */
  lemma RoundsToNearest(n: int, divisor: int, u: int)
    requires divisor > 0
    ensures RoundHalfAway(n, divisor) == u <==>
            || -divisor < 2 * (n - u * divisor) < divisor
            || (n > 0 && 2 * (n - u * divisor) == -divisor)
            || (n < 0 && 2 * (n - u * divisor) == divisor)
  {
    var p := u * divisor;
    if n >= 0 {
      QuotientIs(2 * n + divisor, 2 * divisor, u);
      assert u * (2 * divisor) == 2 * p;
      NoHalf(2 * u, divisor);
      assert 2 * u * divisor == 2 * p;
    } else {
      QuotientIs(2 * -n + divisor, 2 * divisor, -u);
      assert -u * (2 * divisor) == -2 * p;
    }
  }

  lemma QuotientIs(n: int, d: int, q: int)
    requires d > 0
    ensures n / d == q <==> q * d <= n < q * d + d
  {
    var p := n / d;
    assert p * d <= n < p * d + d;
    if p < q {
      Spread(p, q, d);
    } else if q < p {
      Spread(q, p, d);
    }
  }

  lemma Spread(p: int, q: int, d: int)
    requires p < q && d > 0
    ensures p * d + d <= q * d
  {
    assert (q - p - 1) * d == q * d - p * d - d;
    assert (q - p - 1) * d >= 0;
  }

  lemma NoHalf(even: int, d: int)
    requires d > 0 && even % 2 == 0
    ensures even * d != d
  {
    assert even * d - d == (even - 1) * d;
  }

  /** Reading a stored value back. */
  function Load(units: int): Decimal { Decimal(units, -MAX_DECIMAL_PLACES) }

  // ----- exactness -----

  lemma RescaleKeepsUnits(d: Decimal, e: int)
    requires -MAX_DECIMAL_PLACES <= e <= d.exponent
    ensures Units(Rescale(d, e)) == Units(d)
  {
    var shift := d.exponent - e;
    var rest := e + MAX_DECIMAL_PLACES;
    Pow10Add(shift, rest);
    assert d.coefficient * Pow10(shift) * Pow10(rest) == d.coefficient * (Pow10(shift) * Pow10(rest));
  }

  /** On decimals of the column's scale the arithmetic and the comparisons of the service are
      integer arithmetic on units, and no result needs more than eighteen places. */
  lemma ArithmeticIsExact(a: Decimal, b: Decimal)
    requires a.exponent >= -MAX_DECIMAL_PLACES && b.exponent >= -MAX_DECIMAL_PLACES
    ensures Sub(a, b).exponent >= -MAX_DECIMAL_PLACES && Units(Sub(a, b)) == Units(a) - Units(b)
    ensures Add(a, b).exponent >= -MAX_DECIMAL_PLACES && Units(Add(a, b)) == Units(a) + Units(b)
    ensures LessThan(a, b) <==> Units(a) < Units(b)
    ensures Equal(a, b) <==> Units(a) == Units(b)
    ensures GreaterThanOrEqual(a, b) <==> Units(a) >= Units(b)
  {
    var e := Min(a.exponent, b.exponent);
    RescaleKeepsUnits(a, e);
    RescaleKeepsUnits(b, e);
    var x, y, p := Rescale(a, e).coefficient, Rescale(b, e).coefficient, Pow10(e + MAX_DECIMAL_PLACES);
    assert Units(a) == x * p && Units(b) == y * p;
    assert (x - y) * p == x * p - y * p;
    assert (x + y) * p == x * p + y * p;
    ScaleKeepsSign(x - y, p);
  }

  lemma ScaleKeepsSign(n: int, p: nat)
    requires p > 0
    ensures n < 0 <==> n * p < 0
    ensures n == 0 <==> n * p == 0
  {
  }

  lemma SignOfUnits(d: Decimal)
    requires d.exponent >= -MAX_DECIMAL_PLACES
    ensures Sign(d) < 0 <==> Units(d) < 0
    ensures Sign(d) == 0 <==> Units(d) == 0
    ensures Units(Abs(d)) == if Units(d) < 0 then -Units(d) else Units(d)
  {
  }

  /** Exactly the decimals with at most eighteen places and a value in range are accepted, and
      the column holds each of them without rounding. */
  lemma AcceptedAmounts(d: Decimal)
    ensures CheckRangeAndScale(d).None? <==>
            d.exponent >= -MAX_DECIMAL_PLACES && -MAX_UNITS < Units(d) < MAX_UNITS
    ensures ValidateAmount(d).None? <==>
            d.exponent >= -MAX_DECIMAL_PLACES && 0 < Units(d) < MAX_UNITS
    ensures ValidateInitialBalance(d).None? <==>
            d.exponent >= -MAX_DECIMAL_PLACES && 0 <= Units(d) < MAX_UNITS
    ensures CheckRangeAndScale(d).None? ==> Store(d) == Some(Units(d))
  {
    if d.exponent >= -MAX_DECIMAL_PLACES {
      MaxUnitsIsPow10();
      assert Units(MAX_VALUE) == MAX_UNITS;
      ArithmeticIsExact(Abs(d), MAX_VALUE);
      SignOfUnits(d);
    }
  }

  /** Storing and reading back is the identity on values: an accepted amount equals its own
      stored copy, and two accepted amounts match each other's stored copy exactly when they
      are the same amount, whatever trailing zeros either was written with. */
  lemma StorageRoundTrip(a: Decimal, b: Decimal)
    requires CheckRangeAndScale(a).None? && CheckRangeAndScale(b).None?
    ensures Store(a).Some? && Equal(Load(Store(a).value), a)
    ensures Equal(Load(Store(a).value), b) <==> Equal(a, b)
  {
    AcceptedAmounts(a);
    AcceptedAmounts(b);
    assert Pow10(0) == 1;
    assert Units(Load(Units(a))) == Units(a);
    ArithmeticIsExact(Load(Units(a)), a);
    ArithmeticIsExact(Load(Units(a)), b);
    ArithmeticIsExact(a, b);
  }

  /** Padding a decimal with n trailing zeros keeps its value. Whether the padded form is still
      accepted depends on its written places alone. */
  lemma TrailingZeros(d: Decimal, n: nat)
    requires CheckRangeAndScale(d).None?
    ensures Equal(Rescale(d, d.exponent - n), d)
    ensures CheckRangeAndScale(Rescale(d, d.exponent - n)).None? <==> d.exponent - n >= -MAX_DECIMAL_PLACES
  {
    var p := Rescale(d, d.exponent - n);
    assert Rescale(p, p.exponent).coefficient == p.coefficient by { assert Pow10(0) == 1; }
    AcceptedAmounts(d);
    AcceptedAmounts(p);
    if p.exponent >= -MAX_DECIMAL_PLACES {
      RescaleKeepsUnits(d, p.exponent);
    }
  }

  /** The scale check looks at the exponent, not at the value: one and the same amount is
      accepted as 1 * 10^-18 and refused as 10 * 10^-19. */
  lemma ScaleCheckIsSyntactic()
    ensures Equal(Decimal(1, -18), Decimal(10, -19))
    ensures ValidateAmount(Decimal(1, -18)).None?
    ensures ValidateAmount(Decimal(10, -19)).Some?
  {
  }
}
