/**
 * The store's pricing constants and the arithmetic shared by every rule.
 *
 * The rates are kept as integer percentages (the shop's constant table holds
 * them as decimal fractions: 0.1 is 10 here).  Amounts after a percentage
 * discount are exact `real`s; floating point is not modelled.
 */
module Policy {

  // Per-product bulk rates, applied to a line of at least ITEM_DISCOUNT_MIN units.
  const KEYBOARD_RATE: int := 10
  const MOUSE_RATE: int := 15
  const MONITOR_ARM_RATE: int := 20
  /** Assumed: the shop's help text lists no pouch rate, and a missing rate falls back to 0. */
  const POUCH_RATE: int := 0
  const SPEAKER_RATE: int := 25

  // Order-wide rates.
  const BULK_DISCOUNT: int := 25
  const TUESDAY_DISCOUNT: int := 10

  // Promotion rates.
  const LIGHTNING_SALE: int := 20
  const SUGGEST_SALE: int := 5

  // Quantity thresholds.
  const ITEM_DISCOUNT_MIN: int := 10
  const BULK_DISCOUNT_MIN: int := 30
  /** The middle points tier; the source writes this one as a literal. */
  const BULK_20_MIN: int := 20

  // Loyalty points.
  const POINTS_PER_WON: int := 1000
  const TUESDAY_MULTIPLIER: int := 2
  const KEYBOARD_MOUSE_SET: int := 50
  const FULL_SET: int := 100
  const BULK_30: int := 100
  const BULK_20: int := 50
  const BULK_10: int := 20

  /** A percentage as a fraction: `pct/100`. */
  function Fraction(pct: int): real {
    pct as real / 100.0
  }

  /** The fraction of a price that remains after a discount of `pct` percent: `1 - pct/100`. */
  function Keep(pct: int): (k: real)
    ensures 0 <= pct <= 100 ==> 0.0 <= k <= 1.0
    ensures pct > 0 ==> k < 1.0
    ensures k == 1.0 - Fraction(pct)
  {
    (100 - pct) as real / 100.0
  }

  /** JavaScript's `Math.round`: the nearest integer, halves rounded up. */
  function RoundHalfUp(x: real): (r: int)
    ensures x - 0.5 < r as real <= x + 0.5
  {
    (x + 0.5).Floor
  }

  /**
   * Rounding a discounted non-negative price never yields a negative price
   * or one above the undiscounted price.
   */
  lemma DiscountedPriceBounds(v: int, pct: int)
    requires v >= 0 && 0 <= pct <= 100
    ensures 0 <= RoundHalfUp(v as real * Keep(pct)) <= v
  {
    var x := v as real * Keep(pct);
    assert 0.0 <= x <= v as real by {
      assert v as real * Keep(pct) <= v as real * 1.0;
    }
  }
}
