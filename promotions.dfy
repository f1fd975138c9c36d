/**
 * The two timed promotions.  The scheduler's random pick and its timing are
 * outside the model: the lightning tick is given the index it drew, and
 * each tick is one call.
 */
module Promotions {
  import opened Wrappers
  import opened Policy
  import opened Catalog
  import Cart

  /** The lightning price: the ORIGINAL price less LIGHTNING_SALE percent, rounded. */
  function LightningPrice(p: Product): int {
    RoundHalfUp(p.originalVal as real * Keep(LIGHTNING_SALE))
  }

  /** The suggestion price: the CURRENT price less SUGGEST_SALE percent, rounded. */
  function SuggestPrice(p: Product): int {
    RoundHalfUp(p.val as real * Keep(SUGGEST_SALE))
  }

  /** Only the id, stock and original price matter to the cart and to later promotions. */
  predicate KeepsStockAndIds(ps: seq<Product>, r: seq<Product>) {
    |r| == |ps|
    && forall i :: 0 <= i < |ps| ==>
         r[i].id == ps[i].id && r[i].q == ps[i].q && r[i].originalVal == ps[i].originalVal
  }

  /**
   * One lightning tick on the product at `luckyIdx`: a product in stock and
   * not yet on lightning sale gets the lightning price and the flag; any
   * other draw does nothing (no retry within the tick).
   */
  function Lightning(ps: seq<Product>, luckyIdx: nat): (r: seq<Product>)
    requires luckyIdx < |ps|
    ensures KeepsStockAndIds(ps, r)
    ensures forall i :: 0 <= i < |ps| && i != luckyIdx ==> r[i] == ps[i]
    ensures r[luckyIdx].onSale <==> ps[luckyIdx].onSale || ps[luckyIdx].q > 0
    ensures r[luckyIdx].suggestSale == ps[luckyIdx].suggestSale
    ensures !(ps[luckyIdx].q > 0 && !ps[luckyIdx].onSale) ==> r == ps
    ensures ps[luckyIdx].q > 0 && !ps[luckyIdx].onSale ==>
      r[luckyIdx] == ps[luckyIdx].(val := LightningPrice(ps[luckyIdx]), onSale := true)
  {
    var p := ps[luckyIdx];
    if p.q > 0 && !p.onSale then ps[luckyIdx := p.(val := LightningPrice(p), onSale := true)]
    else ps
  }

  /** Whether a product may become the suggestion, given the last selected id. */
  predicate SuggestEligible(p: Product, lastSelected: string) {
    p.id != lastSelected && p.q > 0 && !p.suggestSale
  }

  /** The first eligible product in catalog order. */
  function SuggestTarget(ps: seq<Product>, lastSelected: string): (r: Option<nat>)
    ensures r.Some? ==> r.value < |ps| && SuggestEligible(ps[r.value], lastSelected)
    ensures r.Some? ==> forall j :: 0 <= j < r.value ==> !SuggestEligible(ps[j], lastSelected)
    ensures r.None? ==> forall j :: 0 <= j < |ps| ==> !SuggestEligible(ps[j], lastSelected)
    decreases |ps|
  {
    if ps == [] then None
    else if SuggestEligible(ps[0], lastSelected) then Some(0)
    else match SuggestTarget(ps[1..], lastSelected)
      case None => None
      case Some(k) => Some(k + 1)
  }

  /** The catalog after a tick, and the product announced (if any). */
  datatype Tick = Tick(products: seq<Product>, target: Option<nat>)

  /**
   * One suggestion tick: nothing while the cart is empty or nothing has been
   * selected yet; otherwise the first eligible product gets the suggestion
   * price (compounding on its current price) and the flag.
   */
  function Suggest(ps: seq<Product>, cartEmpty: bool, lastSelected: Option<string>): (r: Tick)
    ensures KeepsStockAndIds(ps, r.products)
    ensures cartEmpty || lastSelected.None? ==> r == Tick(ps, None)
    ensures !cartEmpty && lastSelected.Some? ==> r.target == SuggestTarget(ps, lastSelected.value)
    ensures r.target.None? ==> r.products == ps
    ensures r.target.Some? ==>
              var k := r.target.value;
              k < |ps| && r.products == ps[k := ps[k].(val := SuggestPrice(ps[k]), suggestSale := true)]
  {
    if cartEmpty then Tick(ps, None)
    else match lastSelected
      case None => Tick(ps, None)
      case Some(last) =>
        match SuggestTarget(ps, last)
        case None => Tick(ps, None)
        case Some(k) => Tick(ps[k := ps[k].(val := SuggestPrice(ps[k]), suggestSale := true)], Some(k))
  }

  // ---------------------------------------------------------------------
  // Properties

  /** A second lightning tick on the same product changes nothing. */
  lemma LightningIdempotent(ps: seq<Product>, luckyIdx: nat)
    requires luckyIdx < |ps|
    ensures Lightning(Lightning(ps, luckyIdx), luckyIdx) == Lightning(ps, luckyIdx)
  {
  }

  /**
   * A lightning tick that fires sets the price from the original price, so
   * it lies between 0 and the original price, whatever the current price is.
   */
  lemma LightningPriceBounds(ps: seq<Product>, luckyIdx: nat)
    requires luckyIdx < |ps| && ps[luckyIdx].originalVal >= 0
    requires ps[luckyIdx].q > 0 && !ps[luckyIdx].onSale
    ensures Lightning(ps, luckyIdx)[luckyIdx].val == LightningPrice(ps[luckyIdx])
    ensures 0 <= Lightning(ps, luckyIdx)[luckyIdx].val <= ps[luckyIdx].originalVal
  {
    DiscountedPriceBounds(ps[luckyIdx].originalVal, LIGHTNING_SALE);
  }

  /** The suggested product's price drops, but never below 0. */
  lemma SuggestPriceBounds(ps: seq<Product>, cartEmpty: bool, lastSelected: Option<string>)
    requires forall i :: 0 <= i < |ps| ==> ps[i].val >= 0
    ensures var r := Suggest(ps, cartEmpty, lastSelected);
      r.target.Some? ==> 0 <= r.products[r.target.value].val <= ps[r.target.value].val
  {
    var r := Suggest(ps, cartEmpty, lastSelected);
    if r.target.Some? {
      DiscountedPriceBounds(ps[r.target.value].val, SUGGEST_SALE);
    }
  }

  /** A product that has been suggested is never the target of a later tick. */
  lemma SuggestNeverRepeats(ps: seq<Product>, cartEmpty: bool, lastSelected: Option<string>,
                            cartEmpty': bool, lastSelected': Option<string>)
    requires Suggest(ps, cartEmpty, lastSelected).target.Some?
    ensures var r := Suggest(ps, cartEmpty, lastSelected);
      Suggest(r.products, cartEmpty', lastSelected').target != r.target
  {
    var r := Suggest(ps, cartEmpty, lastSelected);
    var k := r.target.value;
    assert r.products[k].suggestSale;
  }

  /**
   * The two sales do not commute.  On the keyboard (original price 10000),
   * lightning then suggestion gives 7600 (8000 less 5%), while suggestion
   * then lightning gives 8000: the lightning tick recomputes from the
   * original price and drops the suggestion discount, though both flags
   * stay set.
   */
  lemma PromotionOrderMatters()
    ensures var seed := SeedProducts();
      var lightningFirst := Suggest(Lightning(seed, 0), false, Some(MOUSE)).products;
      var suggestFirst := Lightning(Suggest(seed, false, Some(MOUSE)).products, 0);
      lightningFirst[0].val == 7600 && suggestFirst[0].val == 8000
      && lightningFirst[0].onSale && lightningFirst[0].suggestSale
      && suggestFirst[0].onSale && suggestFirst[0].suggestSale
  {
    var seed := SeedProducts();
    var l := Lightning(seed, 0);
    assert l[0].val == 8000;
    assert SuggestTarget(l, MOUSE) == Some(0);
    assert SuggestTarget(seed, MOUSE) == Some(0);
  }

  /**
   * Neither tick touches stock or ids, so both keep the cart invariants and
   * stock conservation.
   */
  lemma PromotionKeepsInventory(inv: Cart.Inventory, ps': seq<Product>, initial: seq<int>)
    requires Cart.WellFormed(inv) && Cart.Conserved(inv, initial)
    requires KeepsStockAndIds(inv.products, ps')
    ensures Cart.WellFormed(Cart.Inventory(ps', inv.cart))
    ensures Cart.Conserved(Cart.Inventory(ps', inv.cart), initial)
  {
    Cart.KeepsWellFormed(inv, Cart.Inventory(ps', inv.cart));
  }
}
