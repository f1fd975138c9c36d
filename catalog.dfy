/**
 * The product catalog: the product record, the seed data the shop starts
 * with, lookup by id, the total stock and the per-product bulk rate table.
 */
module Catalog {
  import opened Wrappers
  import opened Policy

  /**
   * A catalog entry.  `val` is the current unit price (changed by the
   * promotions), `originalVal` the price before any promotion, `q` the
   * remaining stock; `onSale` marks a lightning sale and `suggestSale` a
   * suggested-item sale.
   */
  datatype Product = Product(
    id: string,
    name: string,
    val: int,
    originalVal: int,
    q: int,
    onSale: bool,
    suggestSale: bool)

  const KEYBOARD: string := "p1"
  const MOUSE: string := "p2"
  const MONITOR_ARM: string := "p3"
  const POUCH: string := "p4"
  const SPEAKER: string := "p5"

  /** No two catalog entries share an id. */
  predicate DistinctIds(ps: seq<Product>) {
    forall i, j :: 0 <= i < j < |ps| ==> ps[i].id != ps[j].id
  }

  function Fresh(id: string, name: string, price: int, stock: int): Product {
    Product(id, name, price, price, stock, false, false)
  }

  /** The five products the shop is initialised with; the pouch starts sold out. */
  function SeedProducts(): (ps: seq<Product>)
    ensures |ps| == 5 && DistinctIds(ps)
    ensures forall i :: 0 <= i < |ps| ==>
      ps[i].val == ps[i].originalVal > 0 && ps[i].q >= 0 && !ps[i].onSale && !ps[i].suggestSale
    ensures ps[3].id == POUCH && ps[3].q == 0
  {
    [ Fresh(KEYBOARD, "버그 없애는 키보드", 10000, 50),
      Fresh(MOUSE, "생산성 폭발 마우스", 20000, 30),
      Fresh(MONITOR_ARM, "거북목 탈출 모니터암", 30000, 20),
      Fresh(POUCH, "에러 방지 노트북 파우치", 15000, 0),
      Fresh(SPEAKER, "코딩할 때 듣는 Lo-Fi 스피커", 25000, 10) ]
  }

  /** The initial stock of each seed product, in catalog order. */
  function SeedStock(): (s: seq<int>)
    ensures |s| == |SeedProducts()|
    ensures forall i :: 0 <= i < |s| ==> s[i] == SeedProducts()[i].q
  {
    [50, 30, 20, 0, 10]
  }

  /** The index of the first product with this id, scanning in catalog order. */
  function FindProduct(ps: seq<Product>, id: string): (r: Option<nat>)
    ensures r.Some? ==> r.value < |ps| && ps[r.value].id == id
    ensures r.Some? ==> forall j :: 0 <= j < r.value ==> ps[j].id != id
    ensures r.None? ==> forall j :: 0 <= j < |ps| ==> ps[j].id != id
    decreases |ps|
  {
    if ps == [] then None
    else if ps[0].id == id then Some(0)
    else match FindProduct(ps[1..], id)
      case None => None
      case Some(k) => Some(k + 1)
  }

  /** Lookup depends on the ids alone: changing prices, stock or flags does not move it. */
  lemma FindProductSameIds(ps: seq<Product>, ps': seq<Product>, id: string)
    requires |ps| == |ps'|
    requires forall i :: 0 <= i < |ps| ==> ps[i].id == ps'[i].id
    ensures FindProduct(ps, id) == FindProduct(ps', id)
  {
  }

  /** Total remaining stock, summed in catalog order. */
  function SumStock(ps: seq<Product>): (s: int)
    ensures (forall i :: 0 <= i < |ps| ==> ps[i].q >= 0) ==> s >= 0
    decreases |ps|
  {
    if ps == [] then 0 else SumStock(ps[..|ps| - 1]) + ps[|ps| - 1].q
  }

  /** The per-product bulk rates (percent), keyed by product id. */
  const ITEM_RATES: map<string, int> := map[
    KEYBOARD := KEYBOARD_RATE,
    MOUSE := MOUSE_RATE,
    MONITOR_ARM := MONITOR_ARM_RATE,
    POUCH := POUCH_RATE,
    SPEAKER := SPEAKER_RATE]

  /**
   * The bulk rate of a product (percent), applied to a line of ten or more
   * units; an id outside the table gets 0.
   */
  function ItemDiscountRate(id: string): (r: int)
    ensures 0 <= r < 100
    ensures r > 0 <==> id in {KEYBOARD, MOUSE, MONITOR_ARM, SPEAKER}
  {
    if id in ITEM_RATES then ITEM_RATES[id] else 0
  }
}
