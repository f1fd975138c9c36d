# Shopping cart pricing, promotions and stock

A Dafny model of the pricing, promotion and stock rules of the single-page
shop in `src/basic/main.basic.js`. The shop sells five products: keyboard
`p1`, mouse `p2`, monitor arm `p3`, notebook pouch `p4` and speaker `p5`.
The model covers these parts of the shop:

- the cart subtotal pass (`calculateCartSubtotal`), with its per-product
  bulk rates for lines of ten or more units;
- the order-level discounts of `handleCalculateCartStuff`: the 25% bulk
  rule from 30 items, which replaces the line discounts, and the Tuesday
  10%, which stacks on top;
- the loyalty points of `doRenderBonusPoints`: the base points, Tuesday
  doubling, the keyboard+mouse and full-set bonuses, and the quantity
  tiers;
- the lightning and suggestion promotion ticks;
- the add, quantity-change and remove handlers, with their stock
  bookkeeping;
- the stock total of `onGetStockTotal`.

Modules:

- `Policy` holds the constants (rates as integer percentages) and the
  shared arithmetic. `Math.round` is modelled as `floor(x + 1/2)`.
- `Catalog` holds the product record, the seed catalog, first-match lookup
  by id, the stock sum and the per-product rate table.
- `Cart` holds the cart lines and the three cart handlers as step
  functions. Each step function takes an inventory (catalog plus cart) to a
  new inventory and an outcome. The module proves that the handlers keep
  the cart well formed and conserve stock: each product's stock plus its
  cart quantity stays equal to its initial stock. It also proves that one
  add followed by one minus press restores the inventory.
- `Promotions` holds the two promotion ticks as functions of the catalog.
- `Pricing` holds the subtotal pass, both as a function and as the loop
  method that mirrors the source, and the order-level discounts. It also
  proves the shop-wide stock total: stock on the shelves plus units in the
  cart equals the initial stock.
- `Points` holds the loyalty points.
- `Shop` holds the shop state as a class. It has the catalog, the cart,
  the last selected id and the three figures the recalculation writes.
  Each handler and tick is a method that updates these fields. Its
  postcondition ties the new state to the step functions above and keeps
  `Valid` (well-formedness plus stock conservation).

The shop's rate constants live in a module that is not part of this
model. Their values come from the help text at
`src/basic/main.basic.js:251-284`. That text gives no rate for the pouch:
the model assumes 0%, which is also what the rate lookup's `|| 0` fallback
(line 508) gives when the constant is missing.

| constant | value |
|---|---|
| keyboard | 10% |
| mouse | 15% |
| monitor arm | 20% |
| speaker | 25% |
| pouch | 0% (assumed) |
| bulk | 25% from 30 items |
| Tuesday | 10% |
| lightning | 20% |
| suggestion | 5% |
| points | 1 per 1000 |
| Tuesday points | x2 |
| set bonuses | +50 / +100 |
| quantity tiers | +20 / +50 / +100 at 10 / 20 / 30 items |

The random lightning index, the clock's "is it Tuesday" and the timers
are not modelled. The index and the Tuesday flag are parameters.

The add handler checks that the stock suffices before raising an
existing line. That check is always true once `q > 0`: the new quantity
is `current + 1` and the bound is `q + current`. The model keeps the
branch and proves it unreachable (`Shop.Shop.AddSelected`).

## Model

| member | source | states |
|---|---|---|
| Policy.Keep | src/basic/main.basic.js:519 | The kept fraction `1 - pct/100` of a discounted price lies in [0, 1], and is below 1 for any positive rate. |
| Policy.RoundHalfUp | src/basic/main.basic.js:329-331 | `Math.round` gives the integer within half a unit of its argument, with halves rounded up. |
| Policy.DiscountedPriceBounds | src/basic/main.basic.js:363-365 | A rounded discounted price of a non-negative price is between 0 and the undiscounted price. |
| Catalog.SeedProducts | src/basic/main.basic.js:62-117 | The start-up catalog has five products with distinct ids. Every product starts at its original price, with no sale flags and non-negative stock. The pouch starts sold out. |
| Catalog.SeedStock | src/basic/main.basic.js:62-117 | The initial stock figures are exactly the seed products' stocks, in catalog order. |
| Catalog.FindProduct | src/basic/main.basic.js:1005-1019 | Lookup returns the first catalog position carrying the id, or nothing when no product has it. |
| Catalog.FindProductSameIds | src/basic/main.basic.js:1072-1077 | Lookup depends only on the ids, so price, stock and flag updates never move a product. |
| Catalog.SumStock | src/basic/main.basic.js:896-906 | The stock total of a catalog with no negative stock is non-negative. |
| Catalog.ItemDiscountRate | src/basic/main.basic.js:500-508 | The rate table gives a rate below 100%. The rate is positive exactly for keyboard, mouse, monitor arm and speaker; the pouch and unknown ids get 0. |
| Cart.LineIndex | src/basic/main.basic.js:1022-1023 | The cart line for an id is the first line with that id, or nothing when the cart has none. |
| Cart.Add | src/basic/main.basic.js:1002-1061 | The outcome is `Added` exactly when the id is non-empty and names a product with stock above 0. Otherwise it is `UnknownProduct` (empty or unknown id) or `SoldOut`, and the inventory is unchanged. Ids never change. |
| Cart.AddMovesOneUnit | src/basic/main.basic.js:1021-1057 | A successful add lowers the product's stock by exactly one and leaves every other product unchanged. The cart then holds one more unit of the product and the same of every other, whether an existing line was raised or a new line of 1 was created. |
| Cart.ChangeQuantity | src/basic/main.basic.js:1078-1091 | The quantity change is refused for want of stock exactly when the new quantity is positive but above stock plus current quantity. A refused or unmatched change leaves the inventory unchanged. |
| Cart.ChangeQuantityApplies | src/basic/main.basic.js:1082-1085 | An applied change has a new quantity above 0. The product's stock drops by exactly `change`, and no other product changes. The cart holds `change` more units of the product and the same of every other. With one line per product, the product's cart quantity is then the new quantity. |
| Cart.ChangeQuantityEmpties | src/basic/main.basic.js:1082-1088 | A change to a quantity of 0 or less returns the line's whole quantity to the product's stock, and no other product changes. The line's quantity leaves the cart. With one line per product, the cart then holds none of the product. |
| Cart.Remove | src/basic/main.basic.js:1092-1097 | Remove either drops the line or, without a product or line for the id, changes nothing. |
| Cart.AddPreserves | src/basic/main.basic.js:1021-1028 | An add keeps the inventory well formed. Stock plus cart quantity stays at each product's initial stock. |
| Cart.AppendLinePreserves | src/basic/main.basic.js:1032-1057 | Appending a new line of one unit and taking that unit from stock keeps well-formedness and conservation. |
| Cart.SetLinePreserves | src/basic/main.basic.js:1083-1085 | Setting a line to a quantity in 1..stock+current and moving the difference out of stock keeps well-formedness and conservation. |
| Cart.DropLinePreserves | src/basic/main.basic.js:1086-1088 | Dropping a line and returning its whole quantity to stock keeps well-formedness and conservation. |
| Cart.ChangeQuantityPreserves | src/basic/main.basic.js:1078-1091 | Every quantity change keeps well-formedness and conservation, in each of its three branches. |
| Cart.RemovePreserves | src/basic/main.basic.js:1092-1097 | Remove keeps well-formedness and conservation. |
| Cart.RemoveDropsLine | src/basic/main.basic.js:1092-1097 | A remove deletes exactly the product's line and returns its whole quantity to that product's stock. Every other product is unchanged, and the cart holds the same quantity of every other product. |
| Cart.RemoveReturnsAll | src/basic/main.basic.js:1093-1096 | After a remove, the cart holds none of the product, and its stock has grown by exactly the quantity the cart held. |
| Cart.AddThenDecrementRestores | src/basic/main.basic.js:1021-1088 | An add followed by one minus press on the same product restores the catalog and the cart exactly, whether the add raised a line or created one. |
| Promotions.Lightning | src/basic/main.basic.js:326-332 | A drawn product out of stock or already on lightning sale leaves the catalog unchanged. Otherwise only the drawn product changes: it gets the lightning price and the flag. Stock, ids, original prices and the suggestion flag are kept. |
| Promotions.SuggestTarget | src/basic/main.basic.js:347-357 | The target is the first product in catalog order that is not the last selection, has stock and is not already suggested; there is none only when no product qualifies. |
| Promotions.Suggest | src/basic/main.basic.js:344-369 | With an empty cart or no selection, nothing happens. Otherwise the target is `SuggestTarget`: only it is repriced, from its current price, and flagged. Without a target the catalog is unchanged. |
| Promotions.LightningIdempotent | src/basic/main.basic.js:328 | A second lightning tick on the same product is a no-op. |
| Promotions.LightningPriceBounds | src/basic/main.basic.js:328-332 | A started lightning sale prices the product at the rounded 80% of its original price, between 0 and the original price. |
| Promotions.SuggestPriceBounds | src/basic/main.basic.js:363-366 | A suggestion never raises a price nor makes it negative. |
| Promotions.SuggestNeverRepeats | src/basic/main.basic.js:352 | The next suggestion tick never picks the product just suggested, whatever the cart and the selection. |
| Promotions.PromotionOrderMatters | src/basic/main.basic.js:329-366 | Lightning then suggestion gives the keyboard 7600, and suggestion then lightning gives 8000: the lightning price is computed from the original price and drops an earlier suggestion discount. |
| Promotions.PromotionKeepsInventory | src/basic/main.basic.js:326-366 | A promotion tick keeps the cart well formed and stock conserved. |
| Pricing.LineRate | src/basic/main.basic.js:496-508 | A line's rate is below 100%, and 0 below ten units. |
| Pricing.CartSubtotal | src/basic/main.basic.js:457-539 | Every recorded discount entry has a rate strictly between 0 and 100%. There are no more entries than lines. |
| Pricing.CalculateCartSubtotal | src/basic/main.basic.js:457-539 | The loop computes exactly the subtotal pass: subtotal, item count, discounted total and discount entries. |
| Pricing.SubtotalSplits | src/basic/main.basic.js:477-491 | The subtotal pass over a concatenation is the sum of the passes over the parts, with the discount entries concatenated. |
| Pricing.SubtotalOrderIndependent | src/basic/main.basic.js:477-519 | Two carts holding the same lines in any order (equal multisets) give the same subtotal, item count and discounted total. |
| Pricing.DiscountedWithinSubtotal | src/basic/main.basic.js:488-519 | With non-negative prices and quantities, the discounted total lies between 0 and the subtotal. |
| Pricing.NoDiscountBelowThreshold | src/basic/main.basic.js:496-519 | With every line under ten units, the discounted total equals the subtotal and no discount entry is recorded. |
| Pricing.OrderTotals | src/basic/main.basic.js:620-645 | The Tuesday discount is marked applied only on a Tuesday. |
| Pricing.BulkOverridesLineDiscounts | src/basic/main.basic.js:623-625 | From 30 items the result depends only on the subtotal and the item count, so the line discounts are discarded. The total is the subtotal less 25% and the rate is 25%. |
| Pricing.BelowBulkKeepsLineDiscounts | src/basic/main.basic.js:626-628 | Under 30 items the weekday total is the discounted total. The rate is `(subtotal - total) / subtotal`. |
| Pricing.TuesdayStacks | src/basic/main.basic.js:635-645 | On a Tuesday the weekday total is cut by a further 10%, exactly when it is positive; otherwise it is kept. |
| Pricing.RateIsBlended | src/basic/main.basic.js:623-639 | For a non-zero subtotal, on any day, the reported rate is the blended rate: `total == subtotal * (1 - rate)`. |
| Pricing.OrderTotalBounds | src/basic/main.basic.js:620-645 | When the discounted total lies within the subtotal, the order total does too, and the rate is in [0, 1]. |
| Pricing.MonitorArmExample | src/basic/main.basic.js:496-639 | Ten monitor arms make a subtotal of 300000, a 20% entry and a total of 240000. On a Tuesday the total is 216000 at a blended 28%. |
| Pricing.ItemCountIsCatalogQty | src/basic/main.basic.js:477-491 | The item count is the total cart quantity of catalog products. |
| Pricing.StockConservedOverall | src/basic/main.basic.js:896-906 | In a well-formed, conserving inventory, the stock total plus the item count equals the total initial stock. |
| Points.BasePoints | src/basic/main.basic.js:798-800 | Base points are the floor of the total over 1000, and non-negative for a non-negative total. |
| Points.ScanSets | src/basic/main.basic.js:822-843 | Each set flag is raised exactly when the cart has a line for that product and the catalog has the product. |
| Points.QuantityBonus | src/basic/main.basic.js:854-867 | Exactly one tier applies: +100 from 30 items, +50 from 20, +20 from 10, nothing below. |
| Points.DayPoints | src/basic/main.basic.js:811-821 | Day points are never negative and are 0 when the base is not positive. |
| Points.LoyaltyPoints | src/basic/main.basic.js:797-868 | An empty cart yields no figure; otherwise the points are non-negative. |
| Points.PointsBreakdown | src/basic/main.basic.js:811-867 | For a non-empty cart the points are day points plus 50 for keyboard+mouse, 150 with the monitor arm as well, plus the quantity tier. |
| Points.FullSetBonus | src/basic/main.basic.js:844-853 | A full set earns exactly 150 bonus points on top of day points and tier. |
| Points.TuesdayDoubles | src/basic/main.basic.js:816-821 | Tuesday adds exactly the positive part of the base once more, so it doubles positive base points. |
| Points.QuantityBonusMonotone | src/basic/main.basic.js:854-867 | More items never earn a smaller tier. |
| Points.PointsMonotoneInTotal | src/basic/main.basic.js:798-867 | A larger total never earns fewer points. |
| Points.TwelveThousandExample | src/basic/main.basic.js:798-821 | A cart of one 5-unit speaker line with an order total of 12000 earns 12 points on a weekday and 24 on a Tuesday. The total is a parameter; it is not computed from the catalog prices. |
| Shop.Shop.constructor | src/basic/main.basic.js:62-117 | Start-up state: seed catalog, empty cart, no selection, zero figures, with the invariant established. |
| Shop.Shop.FindProductIndex | src/basic/main.basic.js:1015-1020 | The search loop returns the first matching catalog position. |
| Shop.Shop.StockTotal | src/basic/main.basic.js:896-906 | The loop sums the stock. Under the invariant, stock plus cart quantity is the initial total. |
| Shop.Shop.ScanCart | src/basic/main.basic.js:822-843 | The scan loop yields exactly the set flags of `ScanSets`. |
| Shop.Shop.RenderBonusPoints | src/basic/main.basic.js:797-868 | The written points are `LoyaltyPoints` of the current cart and figures; an empty cart leaves the previous value. |
| Shop.Shop.Recalculate | src/basic/main.basic.js:565-778 | The figures become the recalculated ones; catalog and cart are untouched and the invariant is kept. |
| Shop.Shop.WriteLine | src/basic/main.basic.js:1027-1028 | Overwriting a line's quantity and moving the difference out of the product's stock, in place, gives exactly `Cart.SetLine`. The same update serves lines 1084-1085. |
| Shop.Shop.DropLineInPlace | src/basic/main.basic.js:1087-1088 | Deleting a line and returning its quantity to the product's stock, in place, gives exactly `Cart.DropLine`. The same update serves lines 1095-1096. |
| Shop.Shop.AppendLine | src/basic/main.basic.js:1056-1057 | Appending a line of one unit and taking that unit from the product's stock, in place. Product k's stock ends one lower, and the cart gains a line of one unit of product k at its end. |
| Shop.Shop.AddSelected | src/basic/main.basic.js:1002-1057 | The in-place update and outcome are exactly `Cart.Add`'s. |
| Shop.Shop.AddToCart | src/basic/main.basic.js:1002-1061 | The new inventory is `Cart.Add`'s and the invariant is kept. When a unit was added, the figures are recalculated and the id becomes the last selection; otherwise nothing else changes. |
| Shop.Shop.ApplyQuantityChange | src/basic/main.basic.js:1078-1091 | The in-place update and outcome are exactly `Cart.ChangeQuantity`'s. |
| Shop.Shop.ChangeQuantity | src/basic/main.basic.js:1063-1103 | The new inventory is `Cart.ChangeQuantity`'s and the invariant is kept. The figures are recalculated, including after a refused change. |
| Shop.Shop.ReturnLine | src/basic/main.basic.js:1092-1097 | The in-place update and outcome are exactly `Cart.Remove`'s. |
| Shop.Shop.RemoveItem | src/basic/main.basic.js:1063-1103 | The new inventory is `Cart.Remove`'s, the invariant is kept, and the figures are recalculated after a removal. |
| Shop.Shop.StartLightningSale | src/basic/main.basic.js:326-332 | The catalog becomes `Lightning` of the old one. It reports that the sale started exactly when the drawn product had stock and was not on lightning sale, which is exactly when the catalog changed. The invariant is kept. |
| Shop.Shop.LightningTick | src/basic/main.basic.js:324-338 | The catalog becomes `Lightning` of the old one. The figures are recalculated only if the sale started, and the invariant is kept. |
| Shop.Shop.ApplySuggestion | src/basic/main.basic.js:344-366 | The search loop and update give exactly `Suggest`'s catalog and target. The invariant is kept. |
| Shop.Shop.SuggestTick | src/basic/main.basic.js:342-369 | The catalog becomes `Suggest`'s. The figures are recalculated only when a product was suggested, and the invariant is kept. |

## Left out

- DOM construction and rendering are not modelled. This covers the page layout, option texts, price markup, the summary HTML, the low-stock messages (lines 605-612, 756-767 and `handleStockInfoUpdate` at 921-939) and the help overlay. They are presentation only.
- `alert` is not modelled. A refused quantity change is the `InsufficientStock` outcome.
- `setTimeout`/`setInterval`, `Math.random` and `new Date()` are not modelled. The lightning index and the Tuesday flag are parameters.
- Quantities are not parsed from the DOM with `parseInt`. The cart is an explicit sequence of (id, quantity) lines.
- Floating point is not modelled. Amounts after a discount are exact `real`s, and rates are integer percentages. `toFixed`, `toLocaleString` and the displayed `Math.round(totalAmt)` are formatting only.
- Pricing.OrderTotals: with a subtotal of 0, the source's rate `(subTot - totalAmt) / subTot` is NaN. The model uses 0 instead. The rate is only ever shown when it is positive and the total is positive.
- Pricing.CartSubtotal: the source looks products up in a `Map` built from the catalog, where a later duplicate id wins. The model takes the first match. The two agree on the catalog, whose ids are distinct (`Cart.WellFormed`).
- Cart.ChangeQuantity, Cart.Remove: the source assumes the clicked line and its product exist; without them it would throw. The model treats that case as a no-op outcome, `NotInCart`.
- Shop.Shop.RenderBonusPoints: with an empty cart the source returns before writing, so the old points stay in the state. The model keeps the old value too, rather than zeroing it.
- Shop.Shop: the catalog is a `seq` of product values that the methods reassign. The source mutates shared product objects in place; aliasing between the catalog and other references is not modelled.
- Points use the unrounded order total, as the source does (line 798), not the rounded figure on display.
- The points pass looks up each cart line's product by its own linear search (lines 827-832). The model uses `FindProduct`, which gives the same first match.
- The order discount (line 631) and the points pass (line 816) each read the clock. The model passes one Tuesday flag to both, so a recalculation that straddles midnight is not modelled.
- The add handler searches the catalog twice (lines 1005-1020); the model searches once.
- `onUpdateSelectOptions` (lines 387-441) is not modelled; it only rebuilds the product drop-down. `doUpdatePricesInCart` is not modelled beyond the recalculation it ends in (line 999); the rest of it only re-renders the cart rows.
