# Shopping-cart state container, modelled in Dafny

This project models the shopping cart of the OctoCAT Supply storefront. The
cart is an ordered sequence of line items, at most one per `productId`. Each
line holds a snapshot of the product (name, price, image, optional discount)
and a positive quantity. A `CartProvider` holds the sequence, and four
operations replace it:

- `addToCart` grows an existing line or appends a new one.
- `removeFromCart` filters out one product.
- `updateQuantity` sets a quantity absolutely, or removes the line when the
  quantity is zero or less.
- `clearCart` empties the cart.

Four values are recomputed from the lines on every render: the item count,
the subtotal with per-line discount, the shipping fee (25, waived from a
subtotal of 100), and the final total. The cart-line component adds the
quantity buttons' dispatch rule and the line's own price and line total.

Files:

- `wrappers.dfy`: the `Option` type, used for a discount that may be absent.
- `cart_context.dfy`, module `CartContext`:
  - the `Product` and `CartItem` records;
  - the cart invariant (`UniqueIds`, `AllPositive`, `WellFormed`);
  - the sequence operations as pure functions (`AddItems`, `RemoveItems`,
    `UpdateItems` and the `find`/`map`/`filter` steps they use);
  - the totals, written as left folds the way `reduce` computes them;
  - the lemmas about all of these;
  - class `CartProvider`, whose methods replace its `cartItems` field. Each
    method's postcondition ties the new sequence to the pure function.
- `cart_item.dfy`, module `CartItemComponent`: `itemPrice` and `totalPrice`
  of one line, `handleQuantityChange`, and the "-" and "+" buttons.

Modelling choices:

- Prices are exact `real`s and quantities are `int`s.
- `discount` is `Option<real>`. The source tests the discount for
  truthiness, so a discount of `0` counts as "no discount", exactly like a
  missing one. `UnitPrice` keeps that test, and `UnitPriceUniform` shows it
  never changes the price.
- The source does not check the invariant on data loaded from storage. So no
  operation here requires it. Preservation is stated as "well formed before
  implies well formed after".

Data declarations:

- `CartContext.CartItem` is the `CartItem` interface at
  frontend/src/context/CartContext.tsx:4-11; its optional `discount` is an
  `Option<real>`.
- `CartContext.Product` is the `Product` interface at
  frontend/src/context/CartContext.tsx:14-24.
- `CartContext.FREE_SHIPPING_THRESHOLD` (100) and `CartContext.SHIPPING_COST`
  (25) are the constants at frontend/src/context/CartContext.tsx:41-42.

## Model

| member | source | states |
|---|---|---|
| `CartContext.Find` | frontend/src/context/CartContext.tsx:80 | `find` by id gives the position of the first line with that id, and finds nothing exactly when no line has it |
| `CartContext.NewItem` | frontend/src/context/CartContext.tsx:91-98 | definition of the appended snapshot line; what it copies from the product is stated in `AddAbsent` |
| `CartContext.UpdateItems` | frontend/src/context/CartContext.tsx:108-121 | definition of the lines `updateQuantity` produces; its properties are in `UpdateNonPositiveIsRemove`, `UpdatePresent`, `UpdateAbsent`, `UpdatePreservesWellFormed` and `UpdateTotals` |
| `CartContext.WellFormed` | frontend/src/context/CartContext.tsx:80-99 | definition of the cart invariant that the find-or-append of `addToCart` maintains: one line per product and every quantity positive; kept by `AddPreservesWellFormed`, `RemovePreservesWellFormed` and `UpdatePreservesWellFormed` |
| `CartContext.UnitPrice` | frontend/src/context/CartContext.tsx:69 | definition of the discounted unit price; its properties are in `UnitPriceUniform` and `UnitPriceBounds` |
| `CartContext.LineAmount` | frontend/src/context/CartContext.tsx:69-70 | definition of one line's share of the subtotal; its properties are in `AddUnits`, `TotalsSingleton` and `TotalsReplaceAt` |
| `CartContext.CartTotal` | frontend/src/context/CartContext.tsx:68-71 | definition of `cartTotal` as a left fold; its properties are in `CartTotalConcat`, `CartTotalNonNegative`, `TotalsReplaceAt` and `LineTotalsMatchCartTotal` |
| `CartContext.AddToMatching` | frontend/src/context/CartContext.tsx:84-88 | same length; each line of the product gets `quantity` more, and every other line is unchanged |
| `CartContext.SetMatching` | frontend/src/context/CartContext.tsx:115-119 | same length; each line of the product gets the new quantity, and every other line is unchanged |
| `CartContext.RemoveItems` | frontend/src/context/CartContext.tsx:105 | afterwards no line has the removed id; the result is never longer |
| `CartContext.AddItems` | frontend/src/context/CartContext.tsx:76-102 | after a positive addition the product is in the cart |
| `CartContext.ItemCount` | frontend/src/context/CartContext.tsx:66 | in a cart of positive quantities, the item count is at least the number of lines |
| `CartContext.ShippingCost` | frontend/src/context/CartContext.tsx:73 | shipping is 0 exactly when the subtotal is at least 100; otherwise it is 25 |
| `CartContext.FinalTotal` | frontend/src/context/CartContext.tsx:74 | equals the subtotal from 100 up, and the subtotal plus 25 below it; at least 25 when the subtotal is non-negative |
| `CartContext.UnitPriceBounds` | frontend/src/context/CartContext.tsx:69 | a non-negative price with a discount of at most 1 gives a non-negative unit price; a non-negative discount never raises it above the base price |
| `CartContext.CartTotalNonNegative` | frontend/src/context/CartContext.tsx:68-74 | non-negative prices, discounts of at most 1 and non-negative quantities give a non-negative subtotal and a final total of at least 25 |
| `CartContext.ItemCountConcat` | frontend/src/context/CartContext.tsx:66 | the item count of two joined runs is the sum of their counts |
| `CartContext.CartTotalConcat` | frontend/src/context/CartContext.tsx:68-71 | the subtotal of two joined runs is the sum of their subtotals |
| `CartContext.TotalsReplaceAt` | frontend/src/context/CartContext.tsx:66-71 | replacing one line changes the count and the subtotal by that line's contribution only |
| `CartContext.AddNonPositiveIsNoOp` | frontend/src/context/CartContext.tsx:77 | adding a quantity of zero or less leaves the lines unchanged |
| `CartContext.AddExisting` | frontend/src/context/CartContext.tsx:80-88 | with unique ids, adding a product already present changes only its line: the quantity grows by exactly `quantity`, and its snapshot, the length and the order stay |
| `CartContext.AddAbsent` | frontend/src/context/CartContext.tsx:89-99 | adding an absent product appends one line at the end; it copies id, name, price, image and discount from the product and has the given quantity |
| `CartContext.AddPreservesWellFormed` | frontend/src/context/CartContext.tsx:76-102 | in a well-formed cart, adding keeps one line per product and all quantities positive |
| `CartContext.AddTwice` | frontend/src/context/CartContext.tsx:80-99 | adding a then b units of the same product equals adding a+b; the first snapshot is kept even if the second product record differs |
| `CartContext.AddItemCount` | frontend/src/context/CartContext.tsx:76-102 | with unique ids, a positive addition raises the item count by exactly `quantity` |
| `CartContext.AddCartTotalExisting` | frontend/src/context/CartContext.tsx:80-88 | with unique ids, adding to a present line raises the subtotal by `quantity` units at the line's snapshot price |
| `CartContext.AddCartTotalNew` | frontend/src/context/CartContext.tsx:89-99 | adding a new product raises the subtotal by the new line's amount |
| `CartContext.AddUnits` | frontend/src/context/CartContext.tsx:69-70 | a line's amount is additive in its quantity at a fixed unit price |
| `CartContext.RemoveAbsent` | frontend/src/context/CartContext.tsx:105 | removing an id no line has is a no-op |
| `CartContext.RemoveKeepsOthers` | frontend/src/context/CartContext.tsx:105 | the kept lines are exactly the lines of the other products |
| `CartContext.RemoveConcat` | frontend/src/context/CartContext.tsx:105 | removal distributes over concatenation, so the kept lines keep their relative order |
| `CartContext.RemovePresent` | frontend/src/context/CartContext.tsx:105 | with unique ids, removing a present product deletes exactly its position and keeps the rest in order |
| `CartContext.RemoveIdempotent` | frontend/src/context/CartContext.tsx:105 | removing twice equals removing once |
| `CartContext.RemovePreservesWellFormed` | frontend/src/context/CartContext.tsx:104-106 | in a well-formed cart, removal keeps one line per product and all quantities positive |
| `CartContext.RemoveTotals` | frontend/src/context/CartContext.tsx:105 | with unique ids, removing a present line lowers the count by its quantity and the subtotal by its amount |
| `CartContext.UpdateNonPositiveIsRemove` | frontend/src/context/CartContext.tsx:109-112 | a new quantity of zero or less gives the same lines as removing the product |
| `CartContext.UpdatePresent` | frontend/src/context/CartContext.tsx:114-120 | with unique ids, a positive quantity replaces (does not add to) the present line's quantity and changes nothing else |
| `CartContext.UpdateAbsent` | frontend/src/context/CartContext.tsx:108-121 | updating an absent product is a no-op and creates no line |
| `CartContext.UpdatePreservesWellFormed` | frontend/src/context/CartContext.tsx:108-121 | in a well-formed cart, updating keeps one line per product and all quantities positive |
| `CartContext.UpdateTotals` | frontend/src/context/CartContext.tsx:114-120 | with unique ids, a positive update moves the count from the old quantity to the new one, and swaps the line's amount for its amount at the new quantity |
| `CartContext.ClearedTotals` | frontend/src/context/CartContext.tsx:123-125 | the empty cart is well formed, counts 0, has subtotal 0, shipping 25 and final total 25 |
| `CartContext.UnitPriceUniform` | frontend/src/context/CartContext.tsx:69 | the truthiness test on the discount gives the same price as always applying it, with a missing discount read as 0 |
| `CartContext.ItemCountZeroIffEmpty` | frontend/src/context/CartContext.tsx:66 | with positive quantities, the item count is 0 exactly when the cart is empty |
| `CartContext.ScenarioFreeShipping` | frontend/src/context/CartContext.tsx:66-74 | two units at 50 with discount 0 give subtotal 100, free shipping and total 100 |
| `CartContext.ScenarioDiscountedLine` | frontend/src/context/CartContext.tsx:66-74 | one unit at 40 with discount 0.25 gives unit price 30, subtotal 30, shipping 25 and total 55 |
| `CartContext.ScenarioAbsoluteUpdate` | frontend/src/context/CartContext.tsx:108-120 | adding 2 units and then updating to 5 leaves a single line of 5, not 7 |
| `CartContext.CartProvider.constructor` | frontend/src/context/CartContext.tsx:45-54 | the initial lines are the stored ones, or empty when nothing could be loaded |
| `CartContext.CartProvider.AddToCart` | frontend/src/context/CartContext.tsx:76-102 | the new lines are `AddItems` of the old ones; a non-positive quantity changes nothing; a well-formed cart stays well formed; with unique ids, a positive quantity grows the count by exactly `quantity` |
| `CartContext.CartProvider.RemoveFromCart` | frontend/src/context/CartContext.tsx:104-106 | the new lines are `RemoveItems` of the old ones; the id is gone; an absent id changes nothing; a well-formed cart stays well formed |
| `CartContext.CartProvider.UpdateQuantity` | frontend/src/context/CartContext.tsx:108-121 | the new lines are `UpdateItems` of the old ones, with the non-positive case sent through `RemoveFromCart`; an absent id changes nothing; a well-formed cart stays well formed |
| `CartContext.CartProvider.ClearCart` | frontend/src/context/CartContext.tsx:123-125 | the lines are empty, so the count is 0 and the final total is 25 |
| `CartItemComponent.ItemPrice` | frontend/src/components/CartItem.tsx:20 | the line's own unit price equals the one the context's subtotal uses; with no discount it is the base price |
| `CartItemComponent.TotalPrice` | frontend/src/components/CartItem.tsx:22 | the line total the line shows equals the amount that line adds to the context's `cartTotal` |
| `CartItemComponent.LineTotalsMatchCartTotal` | frontend/src/components/CartItem.tsx:20-22 | the line totals shown, added over the cart, equal the context's `cartTotal` |
| `CartItemComponent.HandleQuantityChange` | frontend/src/components/CartItem.tsx:12-18 | 0 goes to removal and anything else to `updateQuantity`; either way the result is `updateQuantity` with that value |
| `CartItemComponent.OnDecrease` | frontend/src/components/CartItem.tsx:72 | "-" applies `updateQuantity` with one less; from quantity 1 the product leaves the cart |
| `CartItemComponent.OnIncrease` | frontend/src/components/CartItem.tsx:85 | "+" applies `updateQuantity` with one more |
| `CartItemComponent.DecreaseAtOneRemoves` | frontend/src/components/CartItem.tsx:13-14 | with unique ids, decrementing a line of quantity 1 removes exactly that line and keeps the rest in order |
| `CartItemComponent.DecreaseAboveOneKeeps` | frontend/src/components/CartItem.tsx:16 | in a well-formed cart, decrementing a line of quantity q > 1 leaves it present with q-1 and keeps the cart well formed |
| `CartItemComponent.IncreaseAddsOne` | frontend/src/components/CartItem.tsx:16 | in a well-formed cart, incrementing sets the line to q+1 and changes nothing else |

## Left out

- Browser storage is not modelled: `localStorage.getItem`/`setItem`, `JSON.parse`/`JSON.stringify` and the `console.error` fallbacks (frontend/src/context/CartContext.tsx:45-63). The constructor takes the loaded value as an `Option` parameter. Nothing checks that loaded data satisfies the invariant, and the source does not check it either.
- The save that follows every change is not modelled, so neither is a save/load round trip. It is I/O.
- React plumbing is not modelled: `createContext`, `useState`, `useEffect`, and the `useCart` error thrown outside a provider. These are framework concerns.
- JavaScript floating point and display formatting are not modelled (`toFixed(2)`, `Math.round(discount * 100)`). Prices are exact reals.
- Quantities are integers here. In the source they are JavaScript numbers, and a fractional quantity is not rejected.
- The sign test on quantities behaves as in the source. NaN quantities and discounts are not modelled.
- frontend/src/components/Cart.tsx is presentation only. Its inline quantity sum repeats `cartItemCount`.
- frontend/src/hooks/useCart.tsx is only a re-export.
- The API route tests exercise HTTP handlers whose source is not part of this model.
- Several browser tabs sharing one stored cart are not modelled.
