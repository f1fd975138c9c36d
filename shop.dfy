/**
 * The shop's live state and its event handlers: the catalog, whose entries
 * the handlers and the promotion ticks overwrite, the cart, the last
 * selected id, and the figures every handler recomputes.
 *
 * Each handler is proved against the functions of `Cart`, `Promotions`,
 * `Pricing` and `Points`; `Valid` (the cart invariants and stock
 * conservation) holds after every one of them.
 */
module Shop {
  import opened Wrappers
  import opened Policy
  import opened Catalog
  import opened Cart
  import opened Promotions
  import opened Pricing
  import opened Points

  /** The order total, the item count and the loyalty points on display. */
  datatype Figures = Figures(totalAmount: real, itemCount: int, bonusPoints: int)

  /**
   * The figures a recalculation yields for a catalog and cart on the given
   * day: the order total and item count of the subtotal pass, and the
   * points for that total, or `previousPoints` for an empty cart.
   */
  function Recalculated(inv: Inventory, isTuesday: bool, previousPoints: int): Figures {
    var s := CartSubtotal(inv.cart, inv.products);
    var total := OrderTotals(s, isTuesday).total;
    Figures(total, s.itemCount, LoyaltyPoints(inv.cart, inv.products, total, s.itemCount, isTuesday).GetOr(previousPoints))
  }

  class Shop {
    var products: seq<Product>
    var cart: seq<CartLine>
    var lastSelected: Option<string>
    var totalAmount: real
    var itemCount: int
    var bonusPoints: int
    /** The stock each product started with. */
    ghost const initialStock: seq<int>

    function Inv(): Inventory
      reads this`products, this`cart
    {
      Inventory(products, cart)
    }

    ghost predicate Valid()
      reads this`products, this`cart
    {
      |products| == |initialStock| && WellFormed(Inv()) && Conserved(Inv(), initialStock)
    }

    /** The figures the recalculation writes. */
    function Current(): Figures
      reads this`totalAmount, this`itemCount, this`bonusPoints
    {
      Figures(totalAmount, itemCount, bonusPoints)
    }

    /** The start-up state: the seed catalog, an empty cart and zero totals. */
    constructor ()
      ensures Valid()
      ensures products == SeedProducts() && initialStock == SeedStock()
      ensures cart == [] && lastSelected == None
      ensures totalAmount == 0.0 && itemCount == 0 && bonusPoints == 0
    {
      var seed := SeedProducts();
      products := seed;
      cart := [];
      lastSelected := None;
      totalAmount, itemCount, bonusPoints := 0.0, 0, 0;
      initialStock := SeedStock();
    }

    /** The search loop every handler runs: the first catalog position with this id. */
    method FindProductIndex(id: string) returns (r: Option<nat>)
      ensures r == FindProduct(products, id)
    {
      var i := 0;
      while i < |products|
        invariant 0 <= i <= |products|
        invariant forall j :: 0 <= j < i ==> products[j].id != id
      {
        if products[i].id == id {
          return Some(i);
        }
        i := i + 1;
      }
      return None;
    }

    /** The total stock left on the shelves. */
    method StockTotal() returns (sum: int)
      ensures sum == SumStock(products)
      ensures Valid() ==> sum + CartSubtotal(cart, products).itemCount == SumInts(initialStock)
    {
      sum := 0;
      for i := 0 to |products|
        invariant sum == SumStock(products[..i])
      {
        assert products[..i + 1][..i] == products[..i];
        sum := sum + products[i].q;
      }
      assert products[..|products|] == products;
      if Valid() {
        StockConservedOverall(Inv(), initialStock);
      }
    }

    /** The set scan of the points pass: which set products the cart holds. */
    method ScanCart() returns (hasKeyboard: bool, hasMouse: bool, hasMonitorArm: bool)
      ensures SetFlags(hasKeyboard, hasMouse, hasMonitorArm) == ScanSets(cart, products)
    {
      hasKeyboard, hasMouse, hasMonitorArm := false, false, false;
      for n := 0 to |cart|
        invariant SetFlags(hasKeyboard, hasMouse, hasMonitorArm) == ScanSets(cart[..n], products)
      {
        ScanSetsStep(cart, n, products);
        ghost var before := SetFlags(hasKeyboard, hasMouse, hasMonitorArm);
        var found := FindProductIndex(cart[n].id);
        if found.None? {
          continue;
        }
        var product := products[found.value];
        if product.id == KEYBOARD {
          hasKeyboard := true;
        } else if product.id == MOUSE {
          hasMouse := true;
        } else if product.id == MONITOR_ARM {
          hasMonitorArm := true;
        }
        assert SetFlags(hasKeyboard, hasMouse, hasMonitorArm) == Mark(before, cart[n], products);
      }
      assert cart[..|cart|] == cart;
    }

    /** The loyalty points of the current cart; an empty cart leaves the last figure. */
    method RenderBonusPoints(isTuesday: bool)
      modifies this`bonusPoints
      ensures bonusPoints == LoyaltyPoints(cart, products, totalAmount, itemCount, isTuesday).GetOr(old(bonusPoints))
    {
      var basePoints := BasePoints(totalAmount);
      if |cart| == 0 {
        return;
      }
      var finalPoints := 0;
      if basePoints > 0 {
        finalPoints := basePoints;
      }
      if isTuesday && basePoints > 0 {
        finalPoints := basePoints * TUESDAY_MULTIPLIER;
      }
      var hasKeyboard, hasMouse, hasMonitorArm := ScanCart();
      if hasKeyboard && hasMouse {
        finalPoints := finalPoints + KEYBOARD_MOUSE_SET;
      }
      if hasKeyboard && hasMouse && hasMonitorArm {
        finalPoints := finalPoints + FULL_SET;
      }
      finalPoints := finalPoints + QuantityBonus(itemCount);
      bonusPoints := finalPoints;
    }

    /** The recalculation every handler ends with: totals, item count, then points. */
    method Recalculate(isTuesday: bool)
      modifies this`totalAmount, this`itemCount, this`bonusPoints
      ensures Inv() == old(Inv())
      ensures old(Valid()) ==> Valid()
      ensures Current() == Recalculated(Inv(), isTuesday, old(bonusPoints))
    {
      var summary := CalculateCartSubtotal(cart, products);
      var order := OrderTotals(summary, isTuesday);
      totalAmount := order.total;
      itemCount := summary.itemCount;
      RenderBonusPoints(isTuesday);
    }

    /** Line j set to `newQty`, the difference taken from product k's stock. */
    method WriteLine(k: nat, j: nat, newQty: int)
      requires k < |products| && j < |cart|
      modifies this`cart, this`products
      ensures Inv() == SetLine(old(Inv()), k, j, newQty)
    {
      var prod := products[k];
      products := products[k := prod.(q := prod.q - (newQty - cart[j].qty))];
      cart := cart[j := cart[j].(qty := newQty)];
    }

    /** Line j dropped and its whole quantity returned to product k's stock. */
    method DropLineInPlace(k: nat, j: nat)
      requires k < |products| && j < |cart|
      modifies this`cart, this`products
      ensures Inv() == DropLine(old(Inv()), k, j)
    {
      var prod := products[k];
      products := products[k := prod.(q := prod.q + cart[j].qty)];
      cart := RemoveAt(cart, j);
    }

    /** A new line of one unit of product k, taken from its stock. */
    method AppendLine(k: nat)
      requires k < |products|
      modifies this`cart, this`products
      ensures var ps := old(products);
        Inv() == Inventory(ps[k := ps[k].(q := ps[k].q - 1)], old(cart) + [CartLine(ps[k].id, 1)])
    {
      var prod := products[k];
      products := products[k := prod.(q := prod.q - 1)];
      cart := cart + [CartLine(prod.id, 1)];
    }

    /**
     * The stock and line update behind the add button: an empty or unknown
     * id, or a sold out product, changes nothing.
     */
    method AddSelected(selItem: string) returns (outcome: AddOutcome)
      modifies this`cart, this`products
      ensures Inv() == Add(old(Inv()), selItem).inv
      ensures outcome == Add(old(Inv()), selItem).outcome
    {
      ghost var before := Inv();
      var found := FindProductIndex(selItem);
      if selItem == "" || found.None? {
        return UnknownProduct;
      }
      var k := found.value;
      if products[k].q <= 0 {
        return SoldOut;
      }
      var line := LineIndex(cart, selItem);
      if line.Some? {
        var j := line.value;
        var newQty := cart[j].qty + 1;
        if newQty <= products[k].q + cart[j].qty {
          WriteLine(k, j, newQty);
          assert Add(before, selItem).inv == SetLine(before, k, j, newQty);
        } else {
          assert false;
        }
      } else {
        AppendLine(k);
      }
      return Added;
    }

    /**
     * The add button for the selected id.  When a unit is added the figures
     * are recomputed and the id becomes the last selection; otherwise
     * nothing changes.
     */
    method AddToCart(selItem: string, isTuesday: bool)
      requires Valid()
      modifies this`cart, this`products, this`lastSelected, this`totalAmount, this`itemCount, this`bonusPoints
      ensures Valid()
      ensures var step := Add(old(Inv()), selItem);
        Inv() == step.inv
        && (step.outcome == Added ==>
              lastSelected == Some(selItem) && Current() == Recalculated(Inv(), isTuesday, old(bonusPoints)))
        && (step.outcome != Added ==> lastSelected == old(lastSelected) && Current() == old(Current()))
    {
      ghost var points := bonusPoints;
      AddPreserves(Inv(), selItem, initialStock);
      var outcome := AddSelected(selItem);
      ghost var after := Inv();
      if outcome == Added {
        Recalculate(isTuesday);
        lastSelected := Some(selItem);
        assert Current() == Recalculated(after, isTuesday, points);
      }
      assert Inv() == after;
    }

    /**
     * The stock and line update behind a quantity button; the outcome says
     * which branch was taken (`InsufficientStock` is the alert).
     */
    method ApplyQuantityChange(prodId: string, change: int) returns (outcome: ChangeOutcome)
      modifies this`cart, this`products
      ensures Inv() == Cart.ChangeQuantity(old(Inv()), prodId, change).inv
      ensures outcome == Cart.ChangeQuantity(old(Inv()), prodId, change).outcome
    {
      var found := FindProductIndex(prodId);
      var line := LineIndex(cart, prodId);
      if found.None? || line.None? {
        return NotInCart;
      }
      var k, j := found.value, line.value;
      var currentQty := cart[j].qty;
      var newQty := currentQty + change;
      if newQty > 0 && newQty <= products[k].q + currentQty {
        WriteLine(k, j, newQty);
        outcome := Changed;
      } else if newQty <= 0 {
        DropLineInPlace(k, j);
        outcome := Removed;
      } else {
        outcome := InsufficientStock;
      }
    }

    /**
     * A quantity button on the line for `prodId`.  Unless there is no such
     * line or product, the figures are recomputed, also when the change is
     * refused for want of stock.
     */
    method ChangeQuantity(prodId: string, change: int, isTuesday: bool)
      requires Valid()
      modifies this`cart, this`products, this`totalAmount, this`itemCount, this`bonusPoints
      ensures Valid()
      ensures var step := Cart.ChangeQuantity(old(Inv()), prodId, change);
        Inv() == step.inv
        && (step.outcome != NotInCart ==> Current() == Recalculated(Inv(), isTuesday, old(bonusPoints)))
        && (step.outcome == NotInCart ==> Current() == old(Current()))
    {
      ghost var points := bonusPoints;
      ChangeQuantityPreserves(Inv(), prodId, change, initialStock);
      var outcome := ApplyQuantityChange(prodId, change);
      ghost var after := Inv();
      if outcome != NotInCart {
        Recalculate(isTuesday);
        assert Current() == Recalculated(after, isTuesday, points);
      }
      assert Inv() == after;
    }

    /** The stock and line update behind the remove link. */
    method ReturnLine(prodId: string) returns (outcome: ChangeOutcome)
      modifies this`cart, this`products
      ensures Inv() == Remove(old(Inv()), prodId).inv
      ensures outcome == Remove(old(Inv()), prodId).outcome
    {
      var found := FindProductIndex(prodId);
      var line := LineIndex(cart, prodId);
      if found.None? || line.None? {
        return NotInCart;
      }
      DropLineInPlace(found.value, line.value);
      return Removed;
    }

    /** The remove link on the line for `prodId`: the whole line goes back to stock. */
    method RemoveItem(prodId: string, isTuesday: bool)
      requires Valid()
      modifies this`cart, this`products, this`totalAmount, this`itemCount, this`bonusPoints
      ensures Valid()
      ensures var step := Remove(old(Inv()), prodId);
        Inv() == step.inv
        && (step.outcome == Removed ==> Current() == Recalculated(Inv(), isTuesday, old(bonusPoints)))
        && (step.outcome != Removed ==> Current() == old(Current()))
    {
      ghost var points := bonusPoints;
      RemovePreserves(Inv(), prodId, initialStock);
      var outcome := ReturnLine(prodId);
      ghost var after := Inv();
      if outcome == Removed {
        Recalculate(isTuesday);
        assert Current() == Recalculated(after, isTuesday, points);
      }
      assert Inv() == after;
    }

    /**
     * The catalog update of a lightning tick: a product in stock and not yet
     * on lightning sale gets the lightning price and the flag.
     */
    method StartLightningSale(luckyIdx: nat) returns (started: bool)
      requires Valid() && luckyIdx < |products|
      modifies this`products
      ensures Valid()
      ensures products == Lightning(old(products), luckyIdx)
      ensures started <==> old(products)[luckyIdx].q > 0 && !old(products)[luckyIdx].onSale
      ensures started <==> products != old(products)
    {
      ghost var before := Inv();
      var luckyItem := products[luckyIdx];
      started := luckyItem.q > 0 && !luckyItem.onSale;
      if started {
        products := products[luckyIdx := luckyItem.(val := LightningPrice(luckyItem), onSale := true)];
        assert products[luckyIdx] != before.products[luckyIdx];
      }
      PromotionKeepsInventory(before, products, initialStock);
    }

    /**
     * One lightning tick on the drawn position; the figures are recomputed
     * only when the sale starts.
     */
    method LightningTick(luckyIdx: nat, isTuesday: bool)
      requires Valid() && luckyIdx < |products|
      modifies this`products, this`totalAmount, this`itemCount, this`bonusPoints
      ensures Valid()
      ensures products == Lightning(old(products), luckyIdx)
      ensures products != old(products) ==> Current() == Recalculated(Inv(), isTuesday, old(bonusPoints))
      ensures products == old(products) ==> Current() == old(Current())
    {
      ghost var points := bonusPoints;
      var started := StartLightningSale(luckyIdx);
      ghost var after := Inv();
      if started {
        Recalculate(isTuesday);
        assert Current() == Recalculated(after, isTuesday, points);
      }
      assert Inv() == after;
    }

    /**
     * The catalog update of a suggestion tick: with a non-empty cart and a
     * last selection, the first eligible product in catalog order gets the
     * suggestion price and the flag.
     */
    method ApplySuggestion() returns (target: Option<nat>)
      requires Valid()
      modifies this`products
      ensures Valid()
      ensures Suggest(old(products), cart == [], lastSelected) == Tick(products, target)
    {
      ghost var before := Inv();
      PromotionKeepsInventory(before, Suggest(products, cart == [], lastSelected).products, initialStock);
      if |cart| == 0 || lastSelected.None? {
        return None;
      }
      var last := lastSelected.value;
      var k := 0;
      while k < |products| && !SuggestEligible(products[k], last)
        invariant 0 <= k <= |products|
        invariant forall j :: 0 <= j < k ==> !SuggestEligible(products[j], last)
      {
        k := k + 1;
      }
      if k == |products| {
        return None;
      }
      assert SuggestTarget(products, last) == Some(k);
      var suggest := products[k];
      products := products[k := suggest.(val := SuggestPrice(suggest), suggestSale := true)];
      return Some(k);
    }

    /**
     * One suggestion tick: nothing with an empty cart or no selection yet;
     * otherwise the first eligible product is discounted and the figures
     * recomputed.
     */
    method SuggestTick(isTuesday: bool)
      requires Valid()
      modifies this`products, this`totalAmount, this`itemCount, this`bonusPoints
      ensures Valid()
      ensures var tick := Suggest(old(products), old(cart) == [], old(lastSelected));
        products == tick.products
        && (tick.target.Some? ==> Current() == Recalculated(Inv(), isTuesday, old(bonusPoints)))
        && (tick.target.None? ==> Current() == old(Current()))
    {
      ghost var points := bonusPoints;
      var target := ApplySuggestion();
      ghost var after := Inv();
      if target.Some? {
        Recalculate(isTuesday);
        assert Current() == Recalculated(after, isTuesday, points);
      }
      assert Inv() == after;
    }
  }
}
