/**
 * Loyalty points: base points from the order total, the Tuesday doubling,
 * the keyboard/mouse/monitor-arm set bonuses and the quantity tiers.
 */
module Points {
  import opened Wrappers
  import opened Policy
  import opened Catalog
  import opened Cart

  /** One point per POINTS_PER_WON of the (unrounded) order total, rounded down. */
  function BasePoints(totalAmount: real): (b: int)
    ensures b as real * POINTS_PER_WON as real <= totalAmount < (b + 1) as real * POINTS_PER_WON as real
    ensures totalAmount >= 0.0 ==> b >= 0
  {
    (totalAmount / POINTS_PER_WON as real).Floor
  }

  /** Which of the set products the cart holds. */
  datatype SetFlags = SetFlags(keyboard: bool, mouse: bool, monitorArm: bool)

  /** The cart holds a line for catalog product `pid`. */
  predicate Holds(cart: seq<CartLine>, ps: seq<Product>, pid: string) {
    FindProduct(ps, pid).Some? && exists j :: 0 <= j < |cart| && cart[j].id == pid
  }

  /**
   * The scan over the cart lines: each line's product is looked up in the
   * catalog (a line with no product is skipped) and its id raises a flag.
   */
  function ScanSets(cart: seq<CartLine>, ps: seq<Product>): (f: SetFlags)
    ensures f.keyboard <==> Holds(cart, ps, KEYBOARD)
    ensures f.mouse <==> Holds(cart, ps, MOUSE)
    ensures f.monitorArm <==> Holds(cart, ps, MONITOR_ARM)
    decreases |cart|
  {
    if cart == [] then SetFlags(false, false, false)
    else
      assert forall j :: 0 <= j < |cart| - 1 ==> cart[..|cart| - 1][j] == cart[j];
      Mark(ScanSets(cart[..|cart| - 1], ps), cart[|cart| - 1], ps)
  }

  /** One line of the scan: a line whose product is one of the set's three raises that flag. */
  function Mark(f: SetFlags, line: CartLine, ps: seq<Product>): (r: SetFlags)
    ensures r.keyboard <==> f.keyboard || (line.id == KEYBOARD && FindProduct(ps, KEYBOARD).Some?)
    ensures r.mouse <==> f.mouse || (line.id == MOUSE && FindProduct(ps, MOUSE).Some?)
    ensures r.monitorArm <==> f.monitorArm || (line.id == MONITOR_ARM && FindProduct(ps, MONITOR_ARM).Some?)
  {
    match FindProduct(ps, line.id)
    case None => f
    case Some(k) =>
      if ps[k].id == KEYBOARD then f.(keyboard := true)
      else if ps[k].id == MOUSE then f.(mouse := true)
      else if ps[k].id == MONITOR_ARM then f.(monitorArm := true)
      else f
  }

  /** The scan of the first n + 1 lines is the scan of the first n, marked with line n. */
  lemma ScanSetsStep(cart: seq<CartLine>, n: nat, ps: seq<Product>)
    requires n < |cart|
    ensures ScanSets(cart[..n + 1], ps) == Mark(ScanSets(cart[..n], ps), cart[n], ps)
  {
    assert cart[..n + 1][..n] == cart[..n];
  }

  /** The quantity tier: exactly one of +100, +50, +20 or nothing applies. */
  function QuantityBonus(itemCount: int): (b: int)
    ensures b == BULK_30 <==> itemCount >= BULK_DISCOUNT_MIN
    ensures b == BULK_20 <==> BULK_20_MIN <= itemCount < BULK_DISCOUNT_MIN
    ensures b == BULK_10 <==> ITEM_DISCOUNT_MIN <= itemCount < BULK_20_MIN
    ensures b == 0 <==> itemCount < ITEM_DISCOUNT_MIN
  {
    if itemCount >= BULK_DISCOUNT_MIN then BULK_30
    else if itemCount >= BULK_20_MIN then BULK_20
    else if itemCount >= ITEM_DISCOUNT_MIN then BULK_10
    else 0
  }

  /** Base points, doubled on a Tuesday when there are any; never negative. */
  function DayPoints(base: int, isTuesday: bool): (p: int)
    ensures p >= 0
    ensures base <= 0 ==> p == 0
  {
    if base > 0 then (if isTuesday then base * TUESDAY_MULTIPLIER else base) else 0
  }

  /**
   * The points for the current cart, or None for an empty cart (the shop
   * then leaves its last figure in place).
   */
  function LoyaltyPoints(cart: seq<CartLine>, ps: seq<Product>, totalAmount: real, itemCount: int, isTuesday: bool)
    : (r: Option<int>)
    ensures r.None? <==> cart == []
    ensures r.Some? ==> r.value >= 0
  {
    if cart == [] then None
    else
      var base := BasePoints(totalAmount);
      var points := if base > 0 then base else 0;
      var points := if isTuesday && base > 0 then base * TUESDAY_MULTIPLIER else points;
      var f := ScanSets(cart, ps);
      var points := if f.keyboard && f.mouse then points + KEYBOARD_MOUSE_SET else points;
      var points := if f.keyboard && f.mouse && f.monitorArm then points + FULL_SET else points;
      Some(points + QuantityBonus(itemCount))
  }

  /**
   * The points decompose into the day points, the set bonus and the tier:
   * keyboard and mouse together earn 50, with the monitor arm 150 in all,
   * and any other mix nothing.
   */
  lemma PointsBreakdown(cart: seq<CartLine>, ps: seq<Product>, totalAmount: real, itemCount: int, isTuesday: bool)
    requires cart != []
    ensures var day := DayPoints(BasePoints(totalAmount), isTuesday);
      var kb, ms, arm := Holds(cart, ps, KEYBOARD), Holds(cart, ps, MOUSE), Holds(cart, ps, MONITOR_ARM);
      var sets := if kb && ms && arm then KEYBOARD_MOUSE_SET + FULL_SET else if kb && ms then KEYBOARD_MOUSE_SET else 0;
      LoyaltyPoints(cart, ps, totalAmount, itemCount, isTuesday) == Some(day + sets + QuantityBonus(itemCount))
  {
  }

  /** A full set earns exactly 150 points more than the same order would earn without the set bonuses. */
  lemma FullSetBonus(cart: seq<CartLine>, ps: seq<Product>, totalAmount: real, itemCount: int, isTuesday: bool)
    requires cart != []
    requires Holds(cart, ps, KEYBOARD) && Holds(cart, ps, MOUSE) && Holds(cart, ps, MONITOR_ARM)
    ensures LoyaltyPoints(cart, ps, totalAmount, itemCount, isTuesday)
         == Some(DayPoints(BasePoints(totalAmount), isTuesday) + 150 + QuantityBonus(itemCount))
  {
    PointsBreakdown(cart, ps, totalAmount, itemCount, isTuesday);
  }

  /**
   * A Tuesday adds the base points once more when there are any, and
   * nothing otherwise; every other part of the points is the same.
   */
  lemma TuesdayDoubles(cart: seq<CartLine>, ps: seq<Product>, totalAmount: real, itemCount: int)
    requires cart != []
    ensures var base := BasePoints(totalAmount);
      LoyaltyPoints(cart, ps, totalAmount, itemCount, true).value
      == LoyaltyPoints(cart, ps, totalAmount, itemCount, false).value + (if base > 0 then base else 0)
  {
    PointsBreakdown(cart, ps, totalAmount, itemCount, true);
    PointsBreakdown(cart, ps, totalAmount, itemCount, false);
  }

  /** The tiers never drop as the item count grows. */
  lemma QuantityBonusMonotone(m: int, n: int)
    requires m <= n
    ensures QuantityBonus(m) <= QuantityBonus(n)
  {
  }

  /** More total never means fewer points, for the same cart, count and day. */
  lemma PointsMonotoneInTotal(cart: seq<CartLine>, ps: seq<Product>, t1: real, t2: real, itemCount: int, isTuesday: bool)
    requires cart != [] && t1 <= t2
    ensures LoyaltyPoints(cart, ps, t1, itemCount, isTuesday).value
         <= LoyaltyPoints(cart, ps, t2, itemCount, isTuesday).value
  {
    PointsBreakdown(cart, ps, t1, itemCount, isTuesday);
    PointsBreakdown(cart, ps, t2, itemCount, isTuesday);
    var b1, b2 := BasePoints(t1), BasePoints(t2);
    assert b1 <= b2 by {
      assert b1 as real * 1000.0 <= t1 <= t2 < (b2 + 1) as real * 1000.0;
    }
  }

  /**
   * A cart of one five-unit speaker line with an order total of 12,000 (the
   * total is given, not derived from the catalog's prices) earns 12 points
   * on a weekday and 24 on a Tuesday: no set and no tier applies.
   */
  lemma TwelveThousandExample(ps: seq<Product>)
    ensures LoyaltyPoints([CartLine(SPEAKER, 5)], ps, 12000.0, 5, false) == Some(12)
    ensures LoyaltyPoints([CartLine(SPEAKER, 5)], ps, 12000.0, 5, true) == Some(24)
  {
    var cart := [CartLine(SPEAKER, 5)];
    assert !ScanSets(cart, ps).keyboard by {
      assert !Holds(cart, ps, KEYBOARD);
    }
    assert BasePoints(12000.0) == 12;
  }
}
