/** The market-foot rounding rule: a cut length in inches becomes a billable
    quantity of feet, charged in two tiers per started foot (+0.6 for a
    leftover of at most six inches, +1 for more). Lengths are exact reals. */
module Rounding {

  /** Conversion of a real to an int that drops the fraction (C++'s
      `static_cast<int>`), i.e. rounds toward zero. */
  function Trunc(x: real): (n: int)
    ensures x >= 0.0 ==> n as real <= x < n as real + 1.0
    ensures x < 0.0 ==> n as real - 1.0 < x <= n as real
  {
    if x >= 0.0 then x.Floor else -((-x).Floor)
  }

  /** Whole feet contained in a length: floor(inches / 12). */
  function WholeFeet(inches: real): (n: int)
    ensures 12.0 * n as real <= inches < 12.0 * n as real + 12.0
  {
    (inches / 12.0).Floor
  }

  /** The rule used by every shape but the flexible panel window: whole feet
      plus 0.6 when the leftover is at most six inches (a leftover of zero
      included), whole feet plus 1 otherwise. */
  function MarketFeet(inches: real): (q: real)
    ensures inches / 12.0 < q < inches / 12.0 + 1.0
  {
    var ft := inches / 12.0;
    var whole := ft.Floor;
    var inch := (ft - whole as real) * 12.0;
    if inch <= 6.0 then whole as real + 0.6 else whole as real + 1.0
  }

  /** The flexible panel window's variant: the fraction of a foot is found by
      truncation, and a length with no fraction of a foot is billed as it is. */
  function ExactFootMarketFeet(inches: real): (q: real)
    ensures inches >= 0.0 ==> inches / 12.0 <= q < inches / 12.0 + 1.0
  {
    var ft := inches / 12.0;
    var decimalPart := ft - Trunc(ft) as real;
    if decimalPart == 0.0 then ft
    else
      var inch := decimalPart * 12.0;
      if inch <= 6.0 then Trunc(ft) as real + 0.6 else Trunc(ft) as real + 1.0
  }

  /** Which of the two rounding variants a shape uses. */
  datatype RoundingRule = HalfOrFullFoot | ExactFootUnrounded

  function Round(rule: RoundingRule, inches: real): (q: real)
    ensures inches >= 0.0 ==> inches / 12.0 <= q < inches / 12.0 + 1.0
    ensures inches > 0.0 ==> q > 0.0
  {
    match rule
    case HalfOrFullFoot => MarketFeet(inches)
    case ExactFootUnrounded => ExactFootMarketFeet(inches)
  }

  /** A length between n feet and n feet 6 inches (both ends included) is
      billed as n + 0.6 feet. */
  lemma HalfTier(inches: real, n: int)
    requires 12.0 * n as real <= inches <= 12.0 * n as real + 6.0
    ensures MarketFeet(inches) == n as real + 0.6
  {
    assert WholeFeet(inches) == n;
  }

  /** A length more than 6 inches past n feet, short of n + 1 feet, is billed
      as n + 1 feet. */
  lemma FullTier(inches: real, n: int)
    requires 12.0 * n as real + 6.0 < inches < 12.0 * n as real + 12.0
    ensures MarketFeet(inches) == n as real + 1.0
  {
    assert WholeFeet(inches) == n;
  }

  /** The tie-break: exactly six inches of leftover goes to the lower tier,
      and anything beyond it to the next whole foot. */
  lemma SixInchTieBreak()
    ensures MarketFeet(18.0) == 1.6
    ensures MarketFeet(18.01) == 2.0
  {
    HalfTier(18.0, 1);
    FullTier(18.01, 1);
  }

  /** On an exact number of feet the two variants disagree: the flexible
      panel bills the feet unrounded, the other shapes add 0.6. */
  lemma ExactFootVariantsDiffer(n: nat)
    ensures ExactFootMarketFeet(12.0 * n as real) == n as real
    ensures MarketFeet(12.0 * n as real) == n as real + 0.6
  {
    var ft := 12.0 * n as real / 12.0;
    assert ft == n as real;
    assert Trunc(ft) == n;
    HalfTier(12.0 * n as real, n);
  }

  /** Off exact feet, the two variants agree on every non-negative length. */
  lemma VariantsAgreeOffFoot(inches: real)
    requires inches >= 0.0
    requires inches != 12.0 * WholeFeet(inches) as real
    ensures ExactFootMarketFeet(inches) == MarketFeet(inches)
  {
    var ft := inches / 12.0;
    assert Trunc(ft) == WholeFeet(inches);
  }
}
