/**
 * Amounts of money. The bank computes with java.math.BigDecimal, which is
 * exact for addition, subtraction and multiplication; the model uses Dafny's
 * exact `real` and writes out the one place the source rounds: the division of
 * the yearly interest rate by 365, to 10 decimal places, HALF_UP.
 */
module Money {
  import Text

  function Scale(places: nat): (s: real)
    ensures s >= 1.0
  {
    Text.Pow10(places) as real
  }

  /** The whole number nearest to y, a tie going away from zero. */
  function HalfUpUnits(y: real): int {
    if y >= 0.0 then (y + 0.5).Floor else -((-y) + 0.5).Floor
  }

  /**
   * BigDecimal rounding to `places` decimal places with RoundingMode.HALF_UP:
   * the nearest multiple of 10^-places, a tie going away from zero.
   */
  function RoundHalfUp(x: real, places: nat): real {
    RoundToUnit(x, Scale(places))
  }

  /** The multiple of 1/scale nearest to x, a tie going away from zero. */
  function RoundToUnit(x: real, scale: real): real
    requires scale > 0.0
  {
    HalfUpUnits(x * scale) as real / scale
  }

  /** Account.accrueInterest: interestRate.divide(365, 10, HALF_UP). */
  function DailyRate(interestRate: real): real {
    RoundHalfUp(interestRate / 365.0, 10)
  }

  /** Fee the bank keeps on a bill payment (TransactionManager.BILL_PAYMENT_FEE). */
  const BillPaymentFee: real := 0.50
  /** Fee on a SEPA transfer. */
  const SepaFee: real := 1.50
  /** Fee on a SWIFT transfer. */
  const SwiftFee: real := 25.00
  /** Yearly rate every new account starts with. */
  const DefaultInterestRate: real := 0.01
  /** Monthly maintenance fee of a business account created without one. */
  const DefaultMaintenanceFee: real := 25.00

  /** The whole number HalfUpUnits picks is within half a unit of y and has y's sign. */
  lemma HalfUpUnitsIsNearest(y: real)
    ensures y - 0.5 <= HalfUpUnits(y) as real <= y + 0.5
    ensures y >= 0.0 ==> HalfUpUnits(y) >= 0
    ensures y <= 0.0 ==> HalfUpUnits(y) <= 0
  {
  }

  /** Half-way between two whole numbers, HalfUpUnits moves away from zero. */
  lemma HalfUpUnitsOfTie(k: nat)
    ensures HalfUpUnits(k as real + 0.5) == k + 1
    ensures HalfUpUnits(-(k as real + 0.5)) == -(k + 1)
  {
    assert (k as real + 0.5 + 0.5).Floor == k + 1;
  }

  /** A whole number is its own nearest whole number. */
  lemma HalfUpUnitsOfWhole(y: real)
    requires y.Floor as real == y
    ensures HalfUpUnits(y) as real == y
  {
    var n := y.Floor;
    if y >= 0.0 {
      assert (y + 0.5).Floor == n;
    } else {
      assert -y == (-n) as real;
      assert ((-n) as real + 0.5).Floor == -n;
    }
  }

  /**
   * HALF_UP rounding picks a whole number of 10^-places units no more than half
   * a unit from x and keeps the sign.
   */
  lemma RoundHalfUpIsNearest(x: real, places: nat)
    ensures var y := x * Scale(places);
      var r := RoundHalfUp(x, places);
      y - 0.5 <= r * Scale(places) <= y + 0.5 &&
      r * Scale(places) == HalfUpUnits(y) as real &&
      (x >= 0.0 ==> r >= 0.0) && (x <= 0.0 ==> r <= 0.0)
  {
    NearestAtScale(x, Scale(places));
  }

  lemma NearestAtScale(x: real, scale: real)
    requires scale > 0.0
    ensures var y := x * scale;
      var r := RoundToUnit(x, scale);
      y - 0.5 <= r * scale <= y + 0.5 &&
      r * scale == HalfUpUnits(y) as real &&
      (x >= 0.0 ==> r >= 0.0) && (x <= 0.0 ==> r <= 0.0)
  {
    var u := HalfUpUnits(x * scale);
    HalfUpUnitsIsNearest(x * scale);
    DivThenMul(u as real, scale);
    SignOfProduct(x, scale);
    SignOfQuotient(u as real, scale);
  }

  /** A value that already has at most `places` decimal places is not changed. */
  lemma RoundHalfUpExact(x: real, places: nat)
    requires (x * Scale(places)).Floor as real == x * Scale(places)
    ensures RoundHalfUp(x, places) == x
  {
    ExactAtScale(x, Scale(places));
  }

  lemma ExactAtScale(x: real, scale: real)
    requires scale > 0.0
    requires (x * scale).Floor as real == x * scale
    ensures RoundToUnit(x, scale) == x
  {
    HalfUpUnitsOfWhole(x * scale);
    MulThenDiv(x, scale);
  }

  /** A tie is rounded away from zero, in both directions. */
  lemma RoundHalfUpTie(k: nat, places: nat)
    ensures RoundHalfUp((k as real + 0.5) / Scale(places), places) == (k + 1) as real / Scale(places)
    ensures RoundHalfUp(-((k as real + 0.5) / Scale(places)), places) == -((k + 1) as real / Scale(places))
  {
    TieAtScale(k, Scale(places));
  }

  lemma TieAtScale(k: nat, scale: real)
    requires scale > 0.0
    ensures RoundToUnit((k as real + 0.5) / scale, scale) == (k + 1) as real / scale
    ensures RoundToUnit(-((k as real + 0.5) / scale), scale) == -((k + 1) as real / scale)
  {
    var x := (k as real + 0.5) / scale;
    DivThenMul(k as real + 0.5, scale);
    assert x * scale == k as real + 0.5;
    assert (-x) * scale == -(k as real + 0.5);
    HalfUpUnitsOfTie(k);
    assert HalfUpUnits(x * scale) == k + 1;
    assert HalfUpUnits((-x) * scale) == -(k + 1);
    RoundFromUnits(x, scale, k + 1);
    RoundFromUnits(-x, scale, -(k + 1));
    assert (-(k + 1)) as real / scale == -((k + 1) as real / scale);
  }

  lemma RoundFromUnits(x: real, scale: real, u: int)
    requires scale > 0.0
    requires HalfUpUnits(x * scale) == u
    ensures RoundToUnit(x, scale) == u as real / scale
  {
  }

  lemma DivThenMul(a: real, scale: real)
    requires scale > 0.0
    ensures a / scale * scale == a
  {
  }

  lemma MulThenDiv(a: real, scale: real)
    requires scale > 0.0
    ensures a * scale / scale == a
  {
  }

  lemma SignOfProduct(a: real, scale: real)
    requires scale > 0.0
    ensures a >= 0.0 <==> a * scale >= 0.0
    ensures a * scale <= 0.0 <==> a <= 0.0
  {
  }

  lemma SignOfQuotient(a: real, scale: real)
    requires scale > 0.0
    ensures a >= 0.0 <==> a / scale >= 0.0
    ensures a / scale <= 0.0 <==> a <= 0.0
  {
  }

  /** The daily rate of the default 1% yearly rate is 0.0000273973. */
  lemma DefaultDailyRate()
    ensures DailyRate(DefaultInterestRate) == 0.0000273973
  {
    assert Text.Pow10(10) == 10000000000;
    assert (DefaultInterestRate / 365.0 * 10000000000.0 + 0.5).Floor == 273973;
  }
}
