/**
 * The cart and the three handlers that change it: add-to-cart, the
 * quantity buttons and the remove link.  Each handler moves units between
 * a product's stock `q` and its cart line, so that for every product the
 * stock plus the quantity in the cart stays what it was at start-up.
 *
 * The handlers are stated here as functions from one `Inventory` (catalog
 * plus cart) to the next; the `Shop` class runs them in place.
 */
module Cart {
  import opened Wrappers
  import opened Catalog

  /** One cart row: a product id and the quantity shown beside it. */
  datatype CartLine = CartLine(id: string, qty: int)

  /** The state the cart handlers read and write. */
  datatype Inventory = Inventory(products: seq<Product>, cart: seq<CartLine>)

  datatype AddOutcome = UnknownProduct | SoldOut | Added

  /** `InsufficientStock` is the case the shop announces with an alert. */
  datatype ChangeOutcome = Changed | Removed | InsufficientStock | NotInCart

  datatype Step<O> = Step(inv: Inventory, outcome: O)

  /** The position of the cart line for `id` (the element looked up by id). */
  function LineIndex(cart: seq<CartLine>, id: string): (r: Option<nat>)
    ensures r.Some? ==> r.value < |cart| && cart[r.value].id == id
    ensures r.Some? ==> forall j :: 0 <= j < r.value ==> cart[j].id != id
    ensures r.None? ==> forall j :: 0 <= j < |cart| ==> cart[j].id != id
    decreases |cart|
  {
    if cart == [] then None
    else if cart[0].id == id then Some(0)
    else match LineIndex(cart[1..], id)
      case None => None
      case Some(j) => Some(j + 1)
  }

  /** The quantity of `id` held in the cart, over all lines. */
  function QtyOf(cart: seq<CartLine>, id: string): int
    decreases |cart|
  {
    if cart == [] then 0
    else QtyOf(cart[..|cart| - 1], id) + (if cart[|cart| - 1].id == id then cart[|cart| - 1].qty else 0)
  }

  /** The cart without its line at position `j` (the element removed from the cart). */
  function RemoveAt(cart: seq<CartLine>, j: nat): (r: seq<CartLine>)
    requires j < |cart|
    ensures |r| == |cart| - 1
    ensures forall i :: 0 <= i < j ==> r[i] == cart[i]
    ensures forall i :: j <= i < |r| ==> r[i] == cart[i + 1]
  {
    cart[..j] + cart[j + 1..]
  }

  /**
   * Line j (product k's line) set to `newQty`, the difference taken from
   * product k's stock.
   */
  function SetLine(inv: Inventory, k: nat, j: nat, newQty: int): Inventory
    requires k < |inv.products| && j < |inv.cart|
  {
    var ps, cart := inv.products, inv.cart;
    Inventory(ps[k := ps[k].(q := ps[k].q - (newQty - cart[j].qty))], cart[j := cart[j].(qty := newQty)])
  }

  /** Line j (product k's line) dropped and its quantity returned to product k's stock. */
  function DropLine(inv: Inventory, k: nat, j: nat): Inventory
    requires k < |inv.products| && j < |inv.cart|
  {
    var ps, cart := inv.products, inv.cart;
    Inventory(ps[k := ps[k].(q := ps[k].q + cart[j].qty)], RemoveAt(cart, j))
  }

  predicate DistinctLines(cart: seq<CartLine>) {
    forall j, j' :: 0 <= j < j' < |cart| ==> cart[j].id != cart[j'].id
  }

  /** Same length and the same id at every position. */
  predicate SameIds(ps: seq<Product>, ps': seq<Product>) {
    |ps| == |ps'| && forall i :: 0 <= i < |ps| ==> ps[i].id == ps'[i].id
  }

  /**
   * What the handlers keep true: catalog ids are distinct, no stock is
   * negative, every cart line has a positive quantity and a catalog product,
   * and no product has two lines.
   */
  predicate WellFormed(inv: Inventory) {
    DistinctIds(inv.products)
    && (forall i :: 0 <= i < |inv.products| ==> inv.products[i].q >= 0)
    && (forall j :: 0 <= j < |inv.cart| ==>
          inv.cart[j].qty > 0 && FindProduct(inv.products, inv.cart[j].id).Some?)
    && DistinctLines(inv.cart)
  }

  /** Stock conservation: product i's stock plus its cart quantity is `initial[i]`. */
  predicate Conserved(inv: Inventory, initial: seq<int>) {
    |initial| == |inv.products|
    && forall i :: 0 <= i < |inv.products| ==>
         inv.products[i].q + QtyOf(inv.cart, inv.products[i].id) == initial[i]
  }

  /**
   * The add button: an empty selection or an unknown id does nothing, a sold
   * out product does nothing; otherwise one unit moves from stock into the
   * product's line, which is created with quantity 1 when absent.
   */
  function Add(inv: Inventory, id: string): (r: Step<AddOutcome>)
    ensures r.outcome == UnknownProduct <==> id == "" || FindProduct(inv.products, id).None?
    ensures r.outcome == Added <==>
      id != "" && match FindProduct(inv.products, id)
                  case Some(k) => inv.products[k].q > 0
                  case None => false
    ensures r.outcome != Added ==> r.inv == inv
    ensures SameIds(inv.products, r.inv.products)
  {
    if id == "" then Step(inv, UnknownProduct)
    else match FindProduct(inv.products, id)
      case None => Step(inv, UnknownProduct)
      case Some(k) =>
        var p := inv.products[k];
        if p.q > 0 then
          match LineIndex(inv.cart, id)
          case Some(j) => Step(SetLine(inv, k, j, inv.cart[j].qty + 1), Added)
          case None => Step(Inventory(inv.products[k := p.(q := p.q - 1)], inv.cart + [CartLine(id, 1)]), Added)
        else Step(inv, SoldOut)
  }

  /**
   * A quantity button with step `change`: a new quantity in 1..stock+current
   * is applied and the difference taken from stock; a new quantity of zero
   * or less removes the line and returns all of it; anything larger is
   * refused.  Without a line or a product for `id` nothing happens.
   */
  function ChangeQuantity(inv: Inventory, id: string, change: int): (r: Step<ChangeOutcome>)
    ensures r.outcome == NotInCart <==> FindProduct(inv.products, id).None? || LineIndex(inv.cart, id).None?
    ensures r.outcome == InsufficientStock <==>
      match (FindProduct(inv.products, id), LineIndex(inv.cart, id))
      case (Some(k), Some(j)) =>
        var newQty := inv.cart[j].qty + change;
        newQty > 0 && newQty > inv.products[k].q + inv.cart[j].qty
      case _ => false
    ensures r.outcome in {InsufficientStock, NotInCart} ==> r.inv == inv
    ensures SameIds(inv.products, r.inv.products)
  {
    match (FindProduct(inv.products, id), LineIndex(inv.cart, id))
    case (Some(k), Some(j)) =>
      var p := inv.products[k];
      var currentQty := inv.cart[j].qty;
      var newQty := currentQty + change;
      if newQty > 0 && newQty <= p.q + currentQty then
        Step(SetLine(inv, k, j, newQty), Changed)
      else if newQty <= 0 then
        Step(DropLine(inv, k, j), Removed)
      else
        Step(inv, InsufficientStock)
    case _ => Step(inv, NotInCart)
  }

  /** The remove link: the line goes and its whole quantity returns to stock. */
  function Remove(inv: Inventory, id: string): (r: Step<ChangeOutcome>)
    ensures r.outcome in {Removed, NotInCart}
    ensures r.outcome == NotInCart <==> FindProduct(inv.products, id).None? || LineIndex(inv.cart, id).None?
    ensures r.outcome == NotInCart ==> r.inv == inv
    ensures SameIds(inv.products, r.inv.products)
  {
    match (FindProduct(inv.products, id), LineIndex(inv.cart, id))
    case (Some(k), Some(j)) => Step(DropLine(inv, k, j), Removed)
    case _ => Step(inv, NotInCart)
  }

  // ---------------------------------------------------------------------
  // Quantities held in the cart

  lemma {:induction false} QtyOfConcat(a: seq<CartLine>, b: seq<CartLine>, id: string)
    ensures QtyOf(a + b, id) == QtyOf(a, id) + QtyOf(b, id)
    decreases |b|
  {
    if b == [] {
      assert a + b == a;
    } else {
      var b' := b[..|b| - 1];
      assert (a + b)[..|a + b| - 1] == a + b';
      QtyOfConcat(a, b', id);
    }
  }

  lemma QtyOfSingle(l: CartLine, id: string)
    ensures QtyOf([l], id) == if l.id == id then l.qty else 0
  {
    assert [l][..0] == [];
  }

  /** Setting the quantity of line `j` changes only that line's product's count. */
  lemma QtyOfUpdate(cart: seq<CartLine>, j: nat, n: int, id: string)
    requires j < |cart|
    ensures QtyOf(cart[j := cart[j].(qty := n)], id)
         == QtyOf(cart, id) + (if cart[j].id == id then n - cart[j].qty else 0)
  {
    var l' := cart[j].(qty := n);
    assert cart == cart[..j] + [cart[j]] + cart[j + 1..];
    assert cart[j := l'] == cart[..j] + [l'] + cart[j + 1..];
    QtyOfConcat(cart[..j] + [cart[j]], cart[j + 1..], id);
    QtyOfConcat(cart[..j], [cart[j]], id);
    QtyOfConcat(cart[..j] + [l'], cart[j + 1..], id);
    QtyOfConcat(cart[..j], [l'], id);
    QtyOfSingle(cart[j], id);
    QtyOfSingle(l', id);
  }

  /** Removing line `j` takes exactly its quantity away from its product's count. */
  lemma QtyOfRemoveAt(cart: seq<CartLine>, j: nat, id: string)
    requires j < |cart|
    ensures QtyOf(RemoveAt(cart, j), id)
         == QtyOf(cart, id) - (if cart[j].id == id then cart[j].qty else 0)
  {
    assert cart == cart[..j] + [cart[j]] + cart[j + 1..];
    QtyOfConcat(cart[..j] + [cart[j]], cart[j + 1..], id);
    QtyOfConcat(cart[..j], [cart[j]], id);
    QtyOfConcat(cart[..j], cart[j + 1..], id);
    QtyOfSingle(cart[j], id);
  }

  lemma {:induction false} QtyOfAbsent(cart: seq<CartLine>, id: string)
    requires forall j :: 0 <= j < |cart| ==> cart[j].id != id
    ensures QtyOf(cart, id) == 0
    decreases |cart|
  {
    if cart != [] {
      QtyOfAbsent(cart[..|cart| - 1], id);
    }
  }

  /**
   * In a cart with one line per product, the quantity of `id` is the
   * quantity on its line, or 0 when it has none.
   */
  lemma QtyOfLine(cart: seq<CartLine>, id: string)
    requires DistinctLines(cart)
    ensures QtyOf(cart, id) == match LineIndex(cart, id)
                               case Some(j) => cart[j].qty
                               case None => 0
  {
    match LineIndex(cart, id)
    case None =>
      QtyOfAbsent(cart, id);
    case Some(j) =>
      assert cart == cart[..j] + [cart[j]] + cart[j + 1..];
      QtyOfConcat(cart[..j] + [cart[j]], cart[j + 1..], id);
      QtyOfConcat(cart[..j], [cart[j]], id);
      QtyOfSingle(cart[j], id);
      QtyOfAbsent(cart[..j], id);
      QtyOfAbsent(cart[j + 1..], id);
  }

  // ---------------------------------------------------------------------
  // The handlers keep the invariants

  /** A line lookup depends on the ids alone. */
  lemma LineIndexSameIds(cart: seq<CartLine>, cart': seq<CartLine>, id: string)
    requires |cart| == |cart'|
    requires forall j :: 0 <= j < |cart| ==> cart[j].id == cart'[j].id
    ensures LineIndex(cart, id) == LineIndex(cart', id)
  {
  }

  lemma LineIndexAt(cart: seq<CartLine>, j: nat, id: string)
    requires j < |cart| && cart[j].id == id
    requires forall j' :: 0 <= j' < j ==> cart[j'].id != id
    ensures LineIndex(cart, id) == Some(j)
  {
  }

  /**
   * The stock-conservation step shared by all handlers: when product k's
   * stock drops by d and the cart holds exactly d more of it (and the same
   * of every other product), conservation is kept.
   */
  lemma MoveUnits(inv: Inventory, inv': Inventory, k: nat, d: int, initial: seq<int>)
    requires Conserved(inv, initial) && DistinctIds(inv.products) && k < |inv.products|
    requires inv'.products == inv.products[k := inv.products[k].(q := inv.products[k].q - d)]
    requires forall x :: QtyOf(inv'.cart, x) == QtyOf(inv.cart, x) + (if x == inv.products[k].id then d else 0)
    ensures Conserved(inv', initial)
  {
    var ps, ps' := inv.products, inv'.products;
    forall i | 0 <= i < |ps'| ensures ps'[i].q + QtyOf(inv'.cart, ps'[i].id) == initial[i] {
      if i != k {
        assert ps[i].id != ps[k].id;
      }
    }
  }

  /** The well-formedness of a new state whose catalog differs only in stock and flags. */
  lemma KeepsWellFormed(inv: Inventory, inv': Inventory)
    requires WellFormed(inv) && SameIds(inv.products, inv'.products)
    requires forall i :: 0 <= i < |inv'.products| ==> inv'.products[i].q >= 0
    requires forall j :: 0 <= j < |inv'.cart| ==>
      inv'.cart[j].qty > 0 && FindProduct(inv.products, inv'.cart[j].id).Some?
    requires DistinctLines(inv'.cart)
    ensures WellFormed(inv')
  {
    forall j | 0 <= j < |inv'.cart| ensures FindProduct(inv'.products, inv'.cart[j].id).Some? {
      FindProductSameIds(inv.products, inv'.products, inv'.cart[j].id);
    }
  }

  /**
   * Setting line j (product k's line) to `newQty`, within what stock allows,
   * and taking the difference from stock keeps the invariants.
   */
  lemma SetLinePreserves(inv: Inventory, k: nat, j: nat, newQty: int, initial: seq<int>)
    requires WellFormed(inv) && Conserved(inv, initial)
    requires k < |inv.products| && j < |inv.cart| && inv.products[k].id == inv.cart[j].id
    requires 0 < newQty <= inv.products[k].q + inv.cart[j].qty
    ensures WellFormed(SetLine(inv, k, j, newQty)) && Conserved(SetLine(inv, k, j, newQty), initial)
  {
    var inv' := SetLine(inv, k, j, newQty);
    SetLineConserves(inv, k, j, newQty, initial);
    var ps, cart := inv.products, inv.cart;
    forall j' | 0 <= j' < |inv'.cart|
      ensures inv'.cart[j'].qty > 0 && FindProduct(ps, inv'.cart[j'].id).Some?
    {
      if j' != j {
        assert inv'.cart[j'] == cart[j'];
      }
    }
    KeepsWellFormed(inv, inv');
  }

  lemma SetLineConserves(inv: Inventory, k: nat, j: nat, newQty: int, initial: seq<int>)
    requires DistinctIds(inv.products) && Conserved(inv, initial)
    requires k < |inv.products| && j < |inv.cart| && inv.products[k].id == inv.cart[j].id
    ensures Conserved(SetLine(inv, k, j, newQty), initial)
  {
    var inv' := SetLine(inv, k, j, newQty);
    var d := newQty - inv.cart[j].qty;
    forall x ensures QtyOf(inv'.cart, x) == QtyOf(inv.cart, x) + (if x == inv.products[k].id then d else 0) {
      QtyOfUpdate(inv.cart, j, newQty, x);
    }
    MoveUnits(inv, inv', k, d, initial);
  }

  /** Dropping line j (product k's line) and returning its quantity keeps the invariants. */
  lemma DropLinePreserves(inv: Inventory, k: nat, j: nat, initial: seq<int>)
    requires WellFormed(inv) && Conserved(inv, initial)
    requires k < |inv.products| && j < |inv.cart| && inv.products[k].id == inv.cart[j].id
    ensures WellFormed(DropLine(inv, k, j)) && Conserved(DropLine(inv, k, j), initial)
  {
    var inv' := DropLine(inv, k, j);
    DropLineConserves(inv, k, j, initial);
    var cart := inv.cart;
    forall j' | 0 <= j' < |inv'.cart|
      ensures inv'.cart[j'].qty > 0 && FindProduct(inv.products, inv'.cart[j'].id).Some?
    {
      if j' < j {
        assert inv'.cart[j'] == cart[j'];
      } else {
        assert inv'.cart[j'] == cart[j' + 1];
      }
    }
    forall a, b | 0 <= a < b < |inv'.cart| ensures inv'.cart[a].id != inv'.cart[b].id {
      var a', b' := if a < j then a else a + 1, if b < j then b else b + 1;
      assert inv'.cart[a] == cart[a'] && inv'.cart[b] == cart[b'];
    }
    KeepsWellFormed(inv, inv');
  }

  lemma DropLineConserves(inv: Inventory, k: nat, j: nat, initial: seq<int>)
    requires DistinctIds(inv.products) && Conserved(inv, initial)
    requires k < |inv.products| && j < |inv.cart| && inv.products[k].id == inv.cart[j].id
    ensures Conserved(DropLine(inv, k, j), initial)
  {
    var inv' := DropLine(inv, k, j);
    var d := -inv.cart[j].qty;
    assert inv'.products == inv.products[k := inv.products[k].(q := inv.products[k].q - d)];
    forall x ensures QtyOf(inv'.cart, x) == QtyOf(inv.cart, x) + (if x == inv.products[k].id then d else 0) {
      QtyOfRemoveAt(inv.cart, j, x);
    }
    MoveUnits(inv, inv', k, d, initial);
  }

  /** Adding keeps the invariants: one unit moves from stock into the cart. */
  lemma AddPreserves(inv: Inventory, id: string, initial: seq<int>)
    requires WellFormed(inv) && Conserved(inv, initial)
    ensures WellFormed(Add(inv, id).inv) && Conserved(Add(inv, id).inv, initial)
  {
    var r := Add(inv, id);
    if r.outcome == Added {
      var ps, cart := inv.products, inv.cart;
      var k := FindProduct(ps, id).value;
      match LineIndex(cart, id)
      case Some(j) =>
        assert r.inv == SetLine(inv, k, j, cart[j].qty + 1);
        SetLinePreserves(inv, k, j, cart[j].qty + 1, initial);
      case None =>
        AppendLinePreserves(inv, k, initial);
    }
  }

  /** A new line of one unit for product k, whose stock drops by one, keeps the invariants. */
  lemma AppendLinePreserves(inv: Inventory, k: nat, initial: seq<int>)
    requires WellFormed(inv) && Conserved(inv, initial)
    requires k < |inv.products| && inv.products[k].q > 0
    requires LineIndex(inv.cart, inv.products[k].id).None?
    ensures var ps, id := inv.products, inv.products[k].id;
      var inv' := Inventory(ps[k := ps[k].(q := ps[k].q - 1)], inv.cart + [CartLine(id, 1)]);
      WellFormed(inv') && Conserved(inv', initial)
  {
    var ps, cart, id := inv.products, inv.cart, inv.products[k].id;
    var inv' := Inventory(ps[k := ps[k].(q := ps[k].q - 1)], cart + [CartLine(id, 1)]);
    forall x ensures QtyOf(inv'.cart, x) == QtyOf(cart, x) + (if x == id then 1 else 0) {
      QtyOfConcat(cart, [CartLine(id, 1)], x);
      QtyOfSingle(CartLine(id, 1), x);
    }
    MoveUnits(inv, inv', k, 1, initial);
    KeepsWellFormed(inv, inv');
  }

  /** A quantity change keeps the invariants whichever of its branches it takes. */
  lemma ChangeQuantityPreserves(inv: Inventory, id: string, change: int, initial: seq<int>)
    requires WellFormed(inv) && Conserved(inv, initial)
    ensures WellFormed(ChangeQuantity(inv, id, change).inv)
    ensures Conserved(ChangeQuantity(inv, id, change).inv, initial)
  {
    match (FindProduct(inv.products, id), LineIndex(inv.cart, id))
    case (Some(k), Some(j)) =>
      var newQty := inv.cart[j].qty + change;
      if newQty > 0 && newQty <= inv.products[k].q + inv.cart[j].qty {
        assert ChangeQuantity(inv, id, change).inv == SetLine(inv, k, j, newQty);
        SetLinePreserves(inv, k, j, newQty, initial);
      } else if newQty <= 0 {
        assert ChangeQuantity(inv, id, change).inv == DropLine(inv, k, j);
        DropLinePreserves(inv, k, j, initial);
      }
    case _ =>
  }

  /** Removing keeps the invariants: the whole line goes back to stock. */
  lemma RemovePreserves(inv: Inventory, id: string, initial: seq<int>)
    requires WellFormed(inv) && Conserved(inv, initial)
    ensures WellFormed(Remove(inv, id).inv) && Conserved(Remove(inv, id).inv, initial)
  {
    match (FindProduct(inv.products, id), LineIndex(inv.cart, id))
    case (Some(k), Some(j)) =>
      assert Remove(inv, id).inv == DropLine(inv, k, j);
      DropLinePreserves(inv, k, j, initial);
    case _ =>
  }

  /**
   * After a remove the product has nothing left in the cart and its stock
   * has grown by what the cart held.
   */
  lemma RemoveReturnsAll(inv: Inventory, id: string)
    requires WellFormed(inv)
    requires Remove(inv, id).outcome == Removed
    ensures QtyOf(Remove(inv, id).inv.cart, id) == 0
    ensures var k := FindProduct(inv.products, id).value;
      Remove(inv, id).inv.products[k].q == inv.products[k].q + QtyOf(inv.cart, id)
  {
    var cart := inv.cart;
    var j := LineIndex(cart, id).value;
    QtyOfLine(cart, id);
    QtyOfRemoveAt(cart, j, id);
  }

  /**
   * What a remove does besides emptying the line: the line's whole
   * quantity goes back to product k's stock and leaves the cart, and no
   * other product and no other product's cart quantity changes.
   */
  lemma RemoveDropsLine(inv: Inventory, id: string)
    requires Remove(inv, id).outcome == Removed
    ensures var ps, cart, r := inv.products, inv.cart, Remove(inv, id).inv;
      var k, j := FindProduct(ps, id).value, LineIndex(cart, id).value;
      r.products == ps[k := ps[k].(q := ps[k].q + cart[j].qty)]
      && r.cart == RemoveAt(cart, j)
      && (forall x :: QtyOf(r.cart, x) == QtyOf(cart, x) - (if x == id then cart[j].qty else 0))
  {
    var cart, j := inv.cart, LineIndex(inv.cart, id).value;
    forall x ensures QtyOf(RemoveAt(cart, j), x) == QtyOf(cart, x) - (if x == id then cart[j].qty else 0) {
      QtyOfRemoveAt(cart, j, x);
    }
  }

  /**
   * What a successful add does: the product's stock drops by one, the cart
   * holds exactly one more of it and the same of every other product, and
   * no other product changes.
   */
  lemma AddMovesOneUnit(inv: Inventory, id: string)
    requires Add(inv, id).outcome == Added
    ensures var ps, k, r := inv.products, FindProduct(inv.products, id).value, Add(inv, id).inv;
      r.products == ps[k := ps[k].(q := ps[k].q - 1)]
      && forall x :: QtyOf(r.cart, x) == QtyOf(inv.cart, x) + (if x == id then 1 else 0)
  {
    var cart := inv.cart;
    match LineIndex(cart, id)
    case Some(j) =>
      forall x ensures QtyOf(cart[j := cart[j].(qty := cart[j].qty + 1)], x)
                       == QtyOf(cart, x) + (if x == id then 1 else 0) {
        QtyOfUpdate(cart, j, cart[j].qty + 1, x);
      }
    case None =>
      forall x ensures QtyOf(cart + [CartLine(id, 1)], x) == QtyOf(cart, x) + (if x == id then 1 else 0) {
        QtyOfConcat(cart, [CartLine(id, 1)], x);
        QtyOfSingle(CartLine(id, 1), x);
      }
  }

  /**
   * What an applied quantity button does: the new quantity is above 0,
   * product k's stock drops by `change`, the cart holds `change` more of
   * the product and the same of every other, and no other product changes.
   * In a cart with one line per product the product's cart quantity is
   * then the new quantity.
   */
  lemma ChangeQuantityApplies(inv: Inventory, id: string, change: int)
    requires ChangeQuantity(inv, id, change).outcome == Changed
    ensures var ps, cart, r := inv.products, inv.cart, ChangeQuantity(inv, id, change).inv;
      var k, j := FindProduct(ps, id).value, LineIndex(cart, id).value;
      cart[j].qty + change > 0
      && r.products == ps[k := ps[k].(q := ps[k].q - change)]
      && (forall x :: QtyOf(r.cart, x) == QtyOf(cart, x) + (if x == id then change else 0))
      && (DistinctLines(cart) ==> QtyOf(r.cart, id) == cart[j].qty + change)
  {
    var ps, cart := inv.products, inv.cart;
    var k, j := FindProduct(ps, id).value, LineIndex(cart, id).value;
    ChangeQuantitySets(inv, id, change, k, j);
    forall x ensures QtyOf(cart[j := cart[j].(qty := cart[j].qty + change)], x)
                     == QtyOf(cart, x) + (if x == id then change else 0) {
      QtyOfUpdate(cart, j, cart[j].qty + change, x);
    }
    if DistinctLines(cart) {
      QtyOfLine(cart, id);
    }
  }

  /**
   * What a quantity button that empties the line does: the new quantity is
   * 0 or less, the line's whole quantity goes back to product k's stock and
   * leaves the cart, and no other product changes.  In a cart with one line
   * per product the cart then holds none of the product.
   */
  lemma ChangeQuantityEmpties(inv: Inventory, id: string, change: int)
    requires ChangeQuantity(inv, id, change).outcome == Removed
    ensures var ps, cart, r := inv.products, inv.cart, ChangeQuantity(inv, id, change).inv;
      var k, j := FindProduct(ps, id).value, LineIndex(cart, id).value;
      cart[j].qty + change <= 0
      && r.products == ps[k := ps[k].(q := ps[k].q + cart[j].qty)]
      && (forall x :: QtyOf(r.cart, x) == QtyOf(cart, x) - (if x == id then cart[j].qty else 0))
      && (DistinctLines(cart) ==> QtyOf(r.cart, id) == 0)
  {
    var ps, cart := inv.products, inv.cart;
    var k, j := FindProduct(ps, id).value, LineIndex(cart, id).value;
    ChangeQuantityDrops(inv, id, change, k, j);
    forall x ensures QtyOf(RemoveAt(cart, j), x) == QtyOf(cart, x) - (if x == id then cart[j].qty else 0) {
      QtyOfRemoveAt(cart, j, x);
    }
    if DistinctLines(cart) {
      QtyOfLine(cart, id);
    }
  }

  /**
   * Adding a product and then pressing its minus button restores the
   * catalog and the cart exactly.
   */
  lemma AddThenDecrementRestores(inv: Inventory, id: string)
    requires WellFormed(inv)
    requires Add(inv, id).outcome == Added
    ensures ChangeQuantity(Add(inv, id).inv, id, -1).inv == inv
  {
    var k := FindProduct(inv.products, id).value;
    match LineIndex(inv.cart, id)
    case Some(j) =>
      DecrementUndoesIncrement(inv, k, j, Add(inv, id).inv);
    case None =>
      DecrementUndoesAppend(inv, k, Add(inv, id).inv);
  }

  lemma DecrementUndoesIncrement(inv: Inventory, k: nat, j: nat, s: Inventory)
    requires k < |inv.products| && j < |inv.cart|
    requires inv.products[k].q >= 0 && inv.cart[j].qty > 0
    requires FindProduct(inv.products, inv.cart[j].id) == Some(k)
    requires LineIndex(inv.cart, inv.cart[j].id) == Some(j)
    requires s == SetLine(inv, k, j, inv.cart[j].qty + 1)
    ensures ChangeQuantity(s, inv.cart[j].id, -1).inv == inv
  {
    var ps, cart, id := inv.products, inv.cart, inv.cart[j].id;
    assert FindProduct(s.products, id) == Some(k) by {
      FindProductSameIds(ps, s.products, id);
    }
    assert LineIndex(s.cart, id) == Some(j) by {
      LineIndexSameIds(cart, s.cart, id);
    }
    ChangeQuantitySets(s, id, -1, k, j);
    SetLineUndone(inv, k, j, cart[j].qty + 1);
  }

  /** Setting a line back to its old quantity undoes a `SetLine`. */
  lemma SetLineUndone(inv: Inventory, k: nat, j: nat, newQty: int)
    requires k < |inv.products| && j < |inv.cart|
    ensures SetLine(SetLine(inv, k, j, newQty), k, j, inv.cart[j].qty) == inv
  {
    var ps, cart, s := inv.products, inv.cart, SetLine(inv, k, j, newQty);
    assert s.products[k := ps[k]] == ps;
    assert s.cart[j := cart[j]] == cart;
  }

  lemma DecrementUndoesAppend(inv: Inventory, k: nat, s: Inventory)
    requires k < |inv.products|
    requires var id := inv.products[k].id;
      FindProduct(inv.products, id) == Some(k) && LineIndex(inv.cart, id).None?
    requires var ps := inv.products;
      s == Inventory(ps[k := ps[k].(q := ps[k].q - 1)], inv.cart + [CartLine(ps[k].id, 1)])
    ensures ChangeQuantity(s, inv.products[k].id, -1).inv == inv
  {
    var ps, cart, id := inv.products, inv.cart, inv.products[k].id;
    var cart' := s.cart;
    assert FindProduct(s.products, id) == Some(k) by {
      FindProductSameIds(ps, s.products, id);
    }
    assert LineIndex(cart', id) == Some(|cart|) by {
      LineIndexAt(cart', |cart|, id);
    }
    ChangeQuantityDrops(s, id, -1, k, |cart|);
    assert DropLine(s, k, |cart|) == inv by {
      var d := DropLine(s, k, |cart|);
      assert d.products[k] == ps[k];
      assert d.products == ps;
      assert RemoveAt(cart', |cart|) == cart;
    }
  }

  /** A change that keeps the line within 1..stock+current sets the line to the new quantity. */
  lemma ChangeQuantitySets(inv: Inventory, id: string, change: int, k: nat, j: nat)
    requires k < |inv.products| && j < |inv.cart|
    requires FindProduct(inv.products, id) == Some(k) && LineIndex(inv.cart, id) == Some(j)
    requires 0 < inv.cart[j].qty + change <= inv.products[k].q + inv.cart[j].qty
    ensures ChangeQuantity(inv, id, change) == Step(SetLine(inv, k, j, inv.cart[j].qty + change), Changed)
  {
  }

  /** A change that takes the line to zero or below is the drop of that line. */
  lemma ChangeQuantityDrops(inv: Inventory, id: string, change: int, k: nat, j: nat)
    requires k < |inv.products| && j < |inv.cart|
    requires FindProduct(inv.products, id) == Some(k) && LineIndex(inv.cart, id) == Some(j)
    requires inv.cart[j].qty + change <= 0
    ensures ChangeQuantity(inv, id, change) == Step(DropLine(inv, k, j), Removed)
  {
  }
}
