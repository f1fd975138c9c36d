/**
 * The pricing calculator: the cart subtotal with per-line bulk discounts,
 * the order-level bulk and Tuesday discounts, and the bookkeeping that ties
 * the item count to the stock.
 */
module Pricing {
  import opened Wrappers
  import opened Policy
  import opened Catalog
  import opened Cart

  /** A per-line discount entry: the product's name and its rate in percent. */
  datatype ItemDiscount = ItemDiscount(name: string, discount: int)

  /**
   * What the subtotal pass returns: the undiscounted subtotal, the number of
   * units, the total after per-line discounts, and the discount entries.
   */
  datatype CartSummary = CartSummary(
    subTotal: int,
    itemCount: int,
    totalAmount: real,
    itemDiscounts: seq<ItemDiscount>)

  /** The rate (percent) for a line of `qty` units of `p`: its bulk rate from ten units on. */
  function LineRate(p: Product, qty: int): (r: int)
    ensures 0 <= r < 100
    ensures qty < ITEM_DISCOUNT_MIN ==> r == 0
  {
    if qty >= ITEM_DISCOUNT_MIN then ItemDiscountRate(p.id) else 0
  }

  /** A line's amount after its per-line discount. */
  function DiscountedLine(itemTotal: int, rate: int): real {
    itemTotal as real * Keep(rate)
  }

  /** One step of the subtotal pass: a line whose id is not in the catalog is skipped. */
  function AddLine(acc: CartSummary, line: CartLine, ps: seq<Product>): CartSummary {
    match FindProduct(ps, line.id)
    case None => acc
    case Some(k) =>
      var p := ps[k];
      var itemTotal := p.val * line.qty;
      var rate := LineRate(p, line.qty);
      CartSummary(
        acc.subTotal + itemTotal,
        acc.itemCount + line.qty,
        acc.totalAmount + DiscountedLine(itemTotal, rate),
        if rate > 0 then acc.itemDiscounts + [ItemDiscount(p.name, rate)] else acc.itemDiscounts)
  }

  /** The subtotal pass over the cart, line by line in cart order. */
  function CartSubtotal(cart: seq<CartLine>, ps: seq<Product>): (r: CartSummary)
    ensures forall i :: 0 <= i < |r.itemDiscounts| ==> 0 < r.itemDiscounts[i].discount < 100
    ensures |r.itemDiscounts| <= |cart|
    decreases |cart|
  {
    if cart == [] then CartSummary(0, 0, 0.0, [])
    else AddLine(CartSubtotal(cart[..|cart| - 1], ps), cart[|cart| - 1], ps)
  }

  /** The subtotal pass as the shop runs it: one loop with four accumulators. */
  method CalculateCartSubtotal(cartItems: seq<CartLine>, productList: seq<Product>) returns (r: CartSummary)
    ensures r == CartSubtotal(cartItems, productList)
  {
    var subTotal, itemCount, totalAmount, itemDiscounts := 0, 0, 0.0, [];
    for i := 0 to |cartItems|
      invariant CartSummary(subTotal, itemCount, totalAmount, itemDiscounts)
             == CartSubtotal(cartItems[..i], productList)
    {
      SubtotalStep(cartItems, i, productList);
      ghost var before := CartSummary(subTotal, itemCount, totalAmount, itemDiscounts);
      var cartItem := cartItems[i];
      var product := FindProduct(productList, cartItem.id);
      if product.None? {
        assert AddLine(before, cartItem, productList) == before;
        continue;
      }
      var p := productList[product.value];
      var quantity := cartItem.qty;
      var itemTotal := p.val * quantity;
      subTotal := subTotal + itemTotal;
      itemCount := itemCount + quantity;
      var discountRate := 0;
      if quantity >= ITEM_DISCOUNT_MIN {
        discountRate := ItemDiscountRate(p.id);
        if discountRate > 0 {
          itemDiscounts := itemDiscounts + [ItemDiscount(p.name, discountRate)];
        }
      }
      assert discountRate == LineRate(p, quantity);
      totalAmount := totalAmount + DiscountedLine(itemTotal, discountRate);
    }
    assert cartItems[..|cartItems|] == cartItems;
    r := CartSummary(subTotal, itemCount, totalAmount, itemDiscounts);
  }

  lemma SubtotalStep(cart: seq<CartLine>, i: nat, ps: seq<Product>)
    requires i < |cart|
    ensures CartSubtotal(cart[..i + 1], ps) == AddLine(CartSubtotal(cart[..i], ps), cart[i], ps)
  {
    assert cart[..i + 1][..i] == cart[..i];
  }

  // ---------------------------------------------------------------------
  // Properties of the subtotal pass

  /** The pass splits over concatenation: each sum adds up, the entries concatenate. */
  lemma {:induction false} SubtotalSplits(a: seq<CartLine>, b: seq<CartLine>, ps: seq<Product>)
    ensures var whole, left, right := CartSubtotal(a + b, ps), CartSubtotal(a, ps), CartSubtotal(b, ps);
      whole.subTotal == left.subTotal + right.subTotal
      && whole.itemCount == left.itemCount + right.itemCount
      && whole.totalAmount == left.totalAmount + right.totalAmount
      && whole.itemDiscounts == left.itemDiscounts + right.itemDiscounts
    decreases |b|
  {
    if b == [] {
      assert a + b == a;
    } else {
      var b' := b[..|b| - 1];
      assert (a + b)[..|a + b| - 1] == a + b';
      assert (a + b)[|a + b| - 1] == b[|b| - 1];
      SubtotalSplits(a, b', ps);
    }
  }

  /** The three sums of two passes agree (the discount entries may come in another order). */
  predicate SameSums(x: CartSummary, y: CartSummary) {
    x.subTotal == y.subTotal && x.itemCount == y.itemCount && x.totalAmount == y.totalAmount
  }

  /**
   * The sums do not depend on the order of the cart lines: any two carts
   * holding the same lines, in whatever order, give the same subtotal, item
   * count and discounted total.
   */
  lemma {:induction false} SubtotalOrderIndependent(a: seq<CartLine>, b: seq<CartLine>, ps: seq<Product>)
    requires multiset(a) == multiset(b)
    ensures SameSums(CartSubtotal(a, ps), CartSubtotal(b, ps))
    decreases |a|
  {
    if a == [] {
      assert |b| == |multiset(b)| == 0;
    } else {
      var a', l := a[..|a| - 1], a[|a| - 1];
      var i := TakeOut(a, b);
      var b' := b[..i] + b[i + 1..];
      SubtotalOrderIndependent(a', b', ps);
      assert a' + [l] == a;
      SubtotalSplits(a', [l], ps);
      SumsAroundLine(b, i, ps);
    }
  }

  /**
   * The last line of `a` occurs in `b` at some position `i`; without their
   * two copies of that line, `a` and `b` still hold the same lines.
   */
  lemma TakeOut(a: seq<CartLine>, b: seq<CartLine>) returns (i: nat)
    requires a != [] && multiset(a) == multiset(b)
    ensures i < |b| && b[i] == a[|a| - 1]
    ensures multiset(a[..|a| - 1]) == multiset(b[..i] + b[i + 1..])
  {
    var l := a[|a| - 1];
    var a' := a[..|a| - 1];
    assert a == a' + [l];
    assert l in b by {
      assert l in multiset(a);
    }
    i :| 0 <= i < |b| && b[i] == l;
    MultisetWithout(b, i);
    CancelOne(multiset(a'), multiset(b[..i] + b[i + 1..]), l);
  }

  /** A sequence's multiset is that of the sequence without position `i`, plus its element there. */
  lemma MultisetWithout(b: seq<CartLine>, i: nat)
    requires i < |b|
    ensures multiset(b) == multiset(b[..i] + b[i + 1..]) + multiset{b[i]}
  {
    assert b == b[..i] + [b[i]] + b[i + 1..];
  }

  /** Two multisets that agree once a line is added to each are equal. */
  lemma CancelOne(m: multiset<CartLine>, n: multiset<CartLine>, l: CartLine)
    requires m + multiset{l} == n + multiset{l}
    ensures m == n
  {
    forall x ensures m[x] == n[x] {
      assert (m + multiset{l})[x] == (n + multiset{l})[x];
    }
  }

  /** The sums over `b` are those over `b` without line `i`, plus that line's. */
  lemma SumsAroundLine(b: seq<CartLine>, i: nat, ps: seq<Product>)
    requires i < |b|
    ensures var whole, rest, line := CartSubtotal(b, ps), CartSubtotal(b[..i] + b[i + 1..], ps), CartSubtotal([b[i]], ps);
      whole.subTotal == rest.subTotal + line.subTotal
      && whole.itemCount == rest.itemCount + line.itemCount
      && whole.totalAmount == rest.totalAmount + line.totalAmount
  {
    assert b == b[..i] + [b[i]] + b[i + 1..];
    SubtotalSplits(b[..i] + [b[i]], b[i + 1..], ps);
    SubtotalSplits(b[..i], [b[i]], ps);
    SubtotalSplits(b[..i], b[i + 1..], ps);
  }

  /**
   * With non-negative prices and quantities, every line contributes at most
   * its undiscounted total, so 0 <= discounted total <= subtotal.
   */
  lemma {:induction false} DiscountedWithinSubtotal(cart: seq<CartLine>, ps: seq<Product>)
    requires forall i :: 0 <= i < |ps| ==> ps[i].val >= 0
    requires forall j :: 0 <= j < |cart| ==> cart[j].qty >= 0
    ensures var r := CartSubtotal(cart, ps);
      0.0 <= r.totalAmount <= r.subTotal as real && r.itemCount >= 0
    decreases |cart|
  {
    if cart != [] {
      var c, l := cart[..|cart| - 1], cart[|cart| - 1];
      DiscountedWithinSubtotal(c, ps);
      match FindProduct(ps, l.id)
      case None =>
      case Some(k) =>
        DiscountedLineWithin(ps[k], l.qty);
    }
  }

  /** One line's discounted total lies between zero and its undiscounted total. */
  lemma DiscountedLineWithin(p: Product, qty: int)
    requires p.val >= 0 && qty >= 0
    ensures var itemTotal := p.val * qty;
      itemTotal >= 0 && 0.0 <= DiscountedLine(itemTotal, LineRate(p, qty)) <= itemTotal as real
  {
    var itemTotal, rate := p.val * qty, LineRate(p, qty);
    assert itemTotal as real * Keep(rate) <= itemTotal as real * 1.0;
  }

  /** Without a line of ten or more units there is no per-line discount at all. */
  lemma {:induction false} NoDiscountBelowThreshold(cart: seq<CartLine>, ps: seq<Product>)
    requires forall j :: 0 <= j < |cart| ==> cart[j].qty < ITEM_DISCOUNT_MIN
    ensures CartSubtotal(cart, ps).totalAmount == CartSubtotal(cart, ps).subTotal as real
    ensures CartSubtotal(cart, ps).itemDiscounts == []
    decreases |cart|
  {
    if cart != [] {
      NoDiscountBelowThreshold(cart[..|cart| - 1], ps);
    }
  }

  // ---------------------------------------------------------------------
  // The order-level discounts

  /** The order total before rounding, the blended rate, and whether Tuesday's discount applied. */
  datatype OrderTotal = OrderTotal(total: real, discRate: real, tuesdayApplied: bool)

  /**
   * From thirty units on, the bulk rate replaces the per-line discounts;
   * otherwise the per-line result stands.  On a Tuesday a positive total is
   * reduced by a further TUESDAY_DISCOUNT percent and the rate re-blended.
   * A zero subtotal gives rate 0.
   */
  function OrderTotals(s: CartSummary, isTuesday: bool): (r: OrderTotal)
    ensures r.tuesdayApplied ==> isTuesday
  {
    var subTot := s.subTotal as real;
    var bulk := s.itemCount >= BULK_DISCOUNT_MIN;
    var totalAmt := if bulk then subTot * Keep(BULK_DISCOUNT) else s.totalAmount;
    var discRate :=
      if bulk then Fraction(BULK_DISCOUNT)
      else if subTot == 0.0 then 0.0
      else (subTot - totalAmt) / subTot;
    if isTuesday && totalAmt > 0.0 then
      var t := totalAmt * Keep(TUESDAY_DISCOUNT);
      OrderTotal(t, if subTot == 0.0 then 0.0 else 1.0 - t / subTot, true)
    else
      OrderTotal(totalAmt, discRate, false)
  }

  /**
   * From thirty units on, the total is the subtotal less BULK_DISCOUNT
   * percent (before Tuesday): the per-line discounts and their entries
   * play no part.
   */
  lemma BulkOverridesLineDiscounts(s: CartSummary, s': CartSummary, isTuesday: bool)
    requires s.itemCount >= BULK_DISCOUNT_MIN
    requires s'.subTotal == s.subTotal && s'.itemCount == s.itemCount
    ensures OrderTotals(s, isTuesday) == OrderTotals(s', isTuesday)
    ensures OrderTotals(s, false).total == s.subTotal as real * Keep(BULK_DISCOUNT)
    ensures OrderTotals(s, false).discRate == Fraction(BULK_DISCOUNT)
  {
  }

  /** Below thirty units (and not on a Tuesday) the per-line result is the total. */
  lemma BelowBulkKeepsLineDiscounts(s: CartSummary)
    requires s.itemCount < BULK_DISCOUNT_MIN
    ensures OrderTotals(s, false).total == s.totalAmount
    ensures s.subTotal != 0 ==>
      OrderTotals(s, false).discRate == (s.subTotal as real - s.totalAmount) / s.subTotal as real
  {
  }

  /**
   * Tuesday stacks multiplicatively on the rest of the order discount, and
   * only on a positive total; other days leave the total as it is.
   */
  lemma TuesdayStacks(s: CartSummary)
    ensures var weekday, tuesday := OrderTotals(s, false), OrderTotals(s, true);
      tuesday.tuesdayApplied == (weekday.total > 0.0)
      && tuesday.total == (if weekday.total > 0.0 then weekday.total * Keep(TUESDAY_DISCOUNT) else weekday.total)
  {
  }

  /**
   * The rate reported is always the blended one: the subtotal less that
   * rate is exactly the total, whichever discounts applied.
   */
  lemma RateIsBlended(s: CartSummary, isTuesday: bool)
    requires s.subTotal != 0
    ensures var r := OrderTotals(s, isTuesday);
      r.total == s.subTotal as real * (1.0 - r.discRate)
  {
    var subTot := s.subTotal as real;
    var r := OrderTotals(s, isTuesday);
    var bulk := s.itemCount >= BULK_DISCOUNT_MIN;
    var totalAmt := if bulk then subTot * Keep(BULK_DISCOUNT) else s.totalAmount;
    if r.tuesdayApplied {
      var t := totalAmt * Keep(TUESDAY_DISCOUNT);
      assert r.total == t && r.discRate == 1.0 - t / subTot;
      assert subTot * (t / subTot) == t;
    } else if !bulk {
      assert r.total == totalAmt && r.discRate == (subTot - totalAmt) / subTot;
      assert subTot * ((subTot - totalAmt) / subTot) == subTot - totalAmt;
    }
  }

  /**
   * When the per-line total lies between 0 and the subtotal, so does the
   * order total, and the blended rate is a fraction between 0 and 1.
   */
  lemma OrderTotalBounds(s: CartSummary, isTuesday: bool)
    requires 0.0 <= s.totalAmount <= s.subTotal as real
    ensures var r := OrderTotals(s, isTuesday);
      0.0 <= r.total <= s.subTotal as real && 0.0 <= r.discRate <= 1.0
  {
    var subTot := s.subTotal as real;
    var r := OrderTotals(s, isTuesday);
    var bulk := s.itemCount >= BULK_DISCOUNT_MIN;
    var totalAmt := if bulk then subTot * Keep(BULK_DISCOUNT) else s.totalAmount;
    assert 0.0 <= totalAmt <= subTot;
    if r.tuesdayApplied {
      var t := totalAmt * Keep(TUESDAY_DISCOUNT);
      assert 0.0 <= t <= totalAmt;
      assert subTot > 0.0;
      assert 0.0 <= t / subTot <= 1.0 by {
        assert t / subTot * subTot == t;
      }
    } else if !bulk && subTot != 0.0 {
      assert 0.0 <= (subTot - totalAmt) / subTot <= 1.0 by {
        assert (subTot - totalAmt) / subTot * subTot == subTot - totalAmt;
      }
    }
  }

  /**
   * Ten monitor arms at 30,000 each: subtotal 300,000, the arm's 20% line
   * discount gives 240,000, and a Tuesday takes that to 216,000 with a
   * blended rate of 28%, not 10%.
   */
  lemma MonitorArmExample()
    ensures var s := CartSubtotal([CartLine(MONITOR_ARM, 10)], SeedProducts());
      s.subTotal == 300000 && s.itemCount == 10 && s.totalAmount == 240000.0
      && s.itemDiscounts == [ItemDiscount(SeedProducts()[2].name, MONITOR_ARM_RATE)]
      && OrderTotals(s, false) == OrderTotal(240000.0, Fraction(20), false)
      && OrderTotals(s, true) == OrderTotal(216000.0, Fraction(28), true)
  {
    var ps := SeedProducts();
    var line := CartLine(MONITOR_ARM, 10);
    assert FindProduct(ps, MONITOR_ARM) == Some(2) by {
      assert ps[0].id == KEYBOARD && ps[1].id == MOUSE && ps[2].id == MONITOR_ARM;
    }
    assert [line][..0] == [];
    assert ItemDiscountRate(MONITOR_ARM) == MONITOR_ARM_RATE;
  }

  // ---------------------------------------------------------------------
  // Item count and stock

  /** The units of catalog products held in the cart, product by product. */
  function CatalogQty(ps: seq<Product>, cart: seq<CartLine>): int
    decreases |ps|
  {
    if ps == [] then 0 else CatalogQty(ps[..|ps| - 1], cart) + QtyOf(cart, ps[|ps| - 1].id)
  }

  function SumInts(xs: seq<int>): int
    decreases |xs|
  {
    if xs == [] then 0 else SumInts(xs[..|xs| - 1]) + xs[|xs| - 1]
  }

  lemma {:induction false} CatalogQtyAppendLine(ps: seq<Product>, cart: seq<CartLine>, l: CartLine)
    requires DistinctIds(ps)
    ensures CatalogQty(ps, cart + [l])
         == CatalogQty(ps, cart) + (if FindProduct(ps, l.id).Some? then l.qty else 0)
    decreases |ps|
  {
    assert (cart + [l])[..|cart|] == cart;
    if ps != [] {
      var ps', p := ps[..|ps| - 1], ps[|ps| - 1];
      CatalogQtyAppendLine(ps', cart, l);
      assert FindProduct(ps, l.id).Some? == (FindProduct(ps', l.id).Some? || p.id == l.id);
      assert !(FindProduct(ps', l.id).Some? && p.id == l.id);
    }
  }

  /** With distinct catalog ids, the item count is the cart's units summed product by product. */
  lemma {:induction false} ItemCountIsCatalogQty(cart: seq<CartLine>, ps: seq<Product>)
    requires DistinctIds(ps)
    ensures CartSubtotal(cart, ps).itemCount == CatalogQty(ps, cart)
    decreases |cart|
  {
    if cart == [] {
      CatalogQtyEmpty(ps);
    } else {
      var c, l := cart[..|cart| - 1], cart[|cart| - 1];
      ItemCountIsCatalogQty(c, ps);
      assert cart == c + [l];
      CatalogQtyAppendLine(ps, c, l);
    }
  }

  lemma {:induction false} CatalogQtyEmpty(ps: seq<Product>)
    ensures CatalogQty(ps, []) == 0
    decreases |ps|
  {
    if ps != [] {
      CatalogQtyEmpty(ps[..|ps| - 1]);
    }
  }

  lemma {:induction false} StockPlusCatalogQty(inv: Inventory, initial: seq<int>)
    requires Conserved(inv, initial)
    ensures SumStock(inv.products) + CatalogQty(inv.products, inv.cart) == SumInts(initial)
    decreases |inv.products|
  {
    var ps := inv.products;
    if ps != [] {
      var n := |ps| - 1;
      StockPlusCatalogQty(Inventory(ps[..n], inv.cart), initial[..n]);
    }
  }

  /**
   * Stock conservation over the whole shop: total stock plus the units in
   * the cart is the total stock the shop started with.
   */
  lemma StockConservedOverall(inv: Inventory, initial: seq<int>)
    requires WellFormed(inv) && Conserved(inv, initial)
    ensures SumStock(inv.products) + CartSubtotal(inv.cart, inv.products).itemCount == SumInts(initial)
  {
    ItemCountIsCatalogQty(inv.cart, inv.products);
    StockPlusCatalogQty(inv, initial);
  }
}
