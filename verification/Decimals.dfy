/**
 Decimal arithmetic: exact between explicit roundings, and rounded half up (ties away from
 zero) to a fixed number of places where the services call `round` or `toDecimalPlaces`.
 */
module Decimals {

  /** The nearest integer, ties away from zero. */
  function HalfUp(x: real): int {
    if x >= 0.0 then (x + 0.5).Floor else -((-x + 0.5).Floor)
  }

  function TenThousandths(n: int): real {
    n as real / 10000.0
  }

  function Hundredths(n: int): real {
    n as real / 100.0
  }

  /** Four places: quantities. */
  function Round4(x: real): real {
    TenThousandths(HalfUp(x * 10000.0))
  }

  /** Two places: money. */
  function Round2(x: real): real {
    Hundredths(HalfUp(x * 100.0))
  }

  function Min(x: real, y: real): real {
    if x <= y then x else y
  }

  function Times(x: real, y: real): real {
    x * y
  }

  /** `x` is within `d` of `y`. */
  ghost predicate Near(x: real, y: real, d: real) {
    -d <= x - y <= d
  }

  /** A value a four-place column can hold. */
  ghost predicate IsQuantity(x: real) {
    exists n :: x == TenThousandths(n)
  }

  /** A value a two-place column can hold. */
  ghost predicate IsMoney(x: real) {
    exists n :: x == Hundredths(n)
  }

  lemma HalfUpOfInteger(n: int)
    ensures HalfUp(n as real) == n
  {
  }

  lemma HalfUpMonotone(x: real, y: real)
    requires x <= y
    ensures HalfUp(x) <= HalfUp(y)
  {
  }

  lemma Round4Nearest(x: real)
    ensures -0.00005 <= Round4(x) - x <= 0.00005
    ensures x >= 0.0 ==> Round4(x) >= 0.0
    ensures IsQuantity(Round4(x))
  {
  }

  lemma Round4OfQuantity(x: real)
    requires IsQuantity(x)
    ensures Round4(x) == x
  {
    var n :| x == TenThousandths(n);
    assert x * 10000.0 == n as real;
    HalfUpOfInteger(n);
    hide HalfUp;
  }

  lemma Round4Monotone(x: real, y: real)
    requires x <= y
    ensures Round4(x) <= Round4(y)
  {
    HalfUpMonotone(x * 10000.0, y * 10000.0);
    hide HalfUp;
  }

  lemma Round2Nearest(x: real)
    ensures -0.005 <= Round2(x) - x <= 0.005
    ensures x >= 0.0 ==> Round2(x) >= 0.0
    ensures IsMoney(Round2(x))
  {
  }

  lemma HalfUpIs(x: real, n: int)
    requires -0.5 < x - n as real < 0.5
    ensures HalfUp(x) == n
  {
  }

  /** Rounding finds the only two-place number nearer than half a cent. */
  lemma Round2Is(x: real, n: int)
    requires -0.005 < x - Hundredths(n) < 0.005
    ensures Round2(x) == Hundredths(n)
  {
    HalfUpIs(x * 100.0, n);
    hide HalfUp;
  }

  lemma Round2Monotone(x: real, y: real)
    requires x <= y
    ensures Round2(x) <= Round2(y)
  {
    HalfUpMonotone(x * 100.0, y * 100.0);
    hide HalfUp;
  }

  lemma Round2OfMoney(x: real)
    ensures IsMoney(x) <==> Round2(x) == x
  {
    if IsMoney(x) {
      var n :| x == Hundredths(n);
      assert x * 100.0 == n as real;
      HalfUpOfInteger(n);
      hide HalfUp;
    } else {
      Round2Nearest(x);
    }
  }

  lemma QuantitiesClosed(x: real, y: real)
    requires IsQuantity(x) && IsQuantity(y)
    ensures IsQuantity(x + y) && IsQuantity(x - y)
  {
    var i, j :| x == TenThousandths(i) && y == TenThousandths(j);
    assert x + y == TenThousandths(i + j);
    assert x - y == TenThousandths(i - j);
  }

  lemma MoneyClosed(x: real, y: real)
    requires IsMoney(x) && IsMoney(y)
    ensures IsMoney(x + y) && IsMoney(x - y)
  {
    var i, j :| x == Hundredths(i) && y == Hundredths(j);
    assert x + y == Hundredths(i + j);
    assert x - y == Hundredths(i - j);
  }

  lemma ZeroIsMoney()
    ensures IsMoney(0.0)
  {
    assert 0.0 == Hundredths(0);
  }

  lemma ProductNonNegative(x: real, y: real)
    requires x >= 0.0 && y >= 0.0
    ensures x * y >= 0.0
  {
  }

  lemma ProductMonotone(x: real, y: real, k: real)
    requires x <= y && k >= 0.0
    ensures x * k <= y * k
  {
  }
}
