/** The rules of one rendered cart line: the price it shows, its line
    total, and how its quantity buttons drive the cart. */
module CartItemComponent {
  import opened CartContext

  /** `itemPrice`: the unit price the line shows, computed by the line
      itself with the same discount rule the subtotal uses. */
  function ItemPrice(item: CartItem): (p: real)
    ensures p == UnitPrice(item)
    ensures item.discount.None? ==> p == item.price
  {
    if item.discount.Some? && item.discount.value != 0.0
    then item.price * (1.0 - item.discount.value)
    else item.price
  }

  /** `totalPrice`: the line total the line shows, which is the amount the
      line contributes to the context's `cartTotal`. */
  function TotalPrice(item: CartItem): (t: real)
    ensures t == LineAmount(item)
  {
    ItemPrice(item) * (item.quantity as real)
  }

  /** The line totals of a whole cart, added up in order. */
  function LineTotalsSum(items: seq<CartItem>): real {
    if |items| == 0 then 0.0
    else LineTotalsSum(items[..|items| - 1]) + TotalPrice(items[|items| - 1])
  }

  /** The line totals shown add up to the context's `cartTotal`. */
  lemma {:induction false} LineTotalsMatchCartTotal(items: seq<CartItem>)
    ensures LineTotalsSum(items) == CartTotal(items)
  {
    if |items| > 0 {
      LineTotalsMatchCartTotal(items[..|items| - 1]);
    }
  }

  /** `handleQuantityChange`: zero goes to `removeFromCart`, any other
      value to `updateQuantity`; either way the cart ends as
      `updateQuantity` with that value would leave it. */
  method HandleQuantityChange(cart: CartProvider, item: CartItem, newQuantity: int)
    modifies cart
    ensures cart.cartItems == UpdateItems(old(cart.cartItems), item.productId, newQuantity)
    ensures newQuantity == 0 ==> cart.cartItems == RemoveItems(old(cart.cartItems), item.productId)
  {
    if newQuantity == 0 {
      cart.RemoveFromCart(item.productId);
    } else {
      cart.UpdateQuantity(item.productId, newQuantity);
    }
  }

  /** The "-" button. */
  method OnDecrease(cart: CartProvider, item: CartItem)
    modifies cart
    ensures cart.cartItems == UpdateItems(old(cart.cartItems), item.productId, item.quantity - 1)
    ensures item.quantity == 1 ==> Absent(cart.cartItems, item.productId)
  {
    HandleQuantityChange(cart, item, item.quantity - 1);
  }

  /** The "+" button. */
  method OnIncrease(cart: CartProvider, item: CartItem)
    modifies cart
    ensures cart.cartItems == UpdateItems(old(cart.cartItems), item.productId, item.quantity + 1)
  {
    HandleQuantityChange(cart, item, item.quantity + 1);
  }

  /** Decreasing a line of one unit removes it, keeping the other lines in order. */
  lemma DecreaseAtOneRemoves(items: seq<CartItem>, i: nat)
    requires UniqueIds(items) && i < |items| && items[i].quantity == 1
    ensures UpdateItems(items, items[i].productId, items[i].quantity - 1)
            == items[..i] + items[i + 1..]
    ensures Absent(UpdateItems(items, items[i].productId, items[i].quantity - 1), items[i].productId)
  {
    RemovePresent(items, i);
  }

  /** Decreasing a line of more than one unit keeps it, one unit smaller,
      and keeps the cart well formed. */
  lemma DecreaseAboveOneKeeps(items: seq<CartItem>, i: nat)
    requires WellFormed(items) && i < |items| && items[i].quantity > 1
    ensures var r := UpdateItems(items, items[i].productId, items[i].quantity - 1);
            r == items[i := items[i].(quantity := items[i].quantity - 1)] && WellFormed(r)
  {
    UpdatePresent(items, i, items[i].quantity - 1);
    UpdatePreservesWellFormed(items, items[i].productId, items[i].quantity - 1);
  }

  /** Increasing a line sets it one unit larger and changes nothing else. */
  lemma IncreaseAddsOne(items: seq<CartItem>, i: nat)
    requires WellFormed(items) && i < |items|
    ensures UpdateItems(items, items[i].productId, items[i].quantity + 1)
            == items[i := items[i].(quantity := items[i].quantity + 1)]
  {
    UpdatePresent(items, i, items[i].quantity + 1);
  }
}
