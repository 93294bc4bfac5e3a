/** The shopping-cart state container of the storefront: the line items a
    `CartProvider` holds, the four operations that replace them, and the
    totals derived from them on every render. */
module CartContext {
  import opened Wrappers

  /** A catalogue product as the storefront receives it. `discount` is
      `None` where the JavaScript object has no discount property. */
  datatype Product = Product(
    productId: int,
    name: string,
    description: string,
    price: real,
    imgName: string,
    sku: string,
    unit: string,
    supplierId: int,
    discount: Option<real>)

  /** One cart line: a snapshot of a product taken when it was first added,
      plus the quantity ordered. */
  datatype CartItem = CartItem(
    productId: int,
    name: string,
    price: real,
    imgName: string,
    quantity: int,
    discount: Option<real>)

  const FREE_SHIPPING_THRESHOLD: real := 100.0
  const SHIPPING_COST: real := 25.0

  // ---------------------------------------------------------------------
  // The cart invariant
  // ---------------------------------------------------------------------

  /** At most one line per product. */
  predicate UniqueIds(items: seq<CartItem>) {
    forall i, j :: 0 <= i < j < |items| ==> items[i].productId != items[j].productId
  }

  /** Every line has a strictly positive quantity. */
  predicate AllPositive(items: seq<CartItem>) {
    forall i :: 0 <= i < |items| ==> items[i].quantity > 0
  }

  predicate WellFormed(items: seq<CartItem>) {
    UniqueIds(items) && AllPositive(items)
  }

  /** No line carries the product `id`. */
  predicate Absent(items: seq<CartItem>, id: int) {
    forall k :: 0 <= k < |items| ==> items[k].productId != id
  }

  // ---------------------------------------------------------------------
  // The sequence operations the mutators are built from
  // ---------------------------------------------------------------------

  /** `find` by product id: the position of the first line with that id. */
  function Find(items: seq<CartItem>, id: int): (r: Option<nat>)
    ensures r.Some? ==> r.value < |items| && items[r.value].productId == id
    ensures r.Some? ==> forall j :: 0 <= j < r.value ==> items[j].productId != id
    ensures r.None? <==> Absent(items, id)
  {
    if |items| == 0 then None
    else if items[0].productId == id then Some(0)
    else match Find(items[1..], id)
      case None => None
      case Some(k) => Some(k + 1)
  }

  /** The line `addToCart` appends for a product not yet in the cart. */
  function NewItem(product: Product, quantity: int): CartItem {
    CartItem(product.productId, product.name, product.price, product.imgName,
             quantity, product.discount)
  }

  /** `map` that adds `quantity` to every line of product `id`. */
  function AddToMatching(items: seq<CartItem>, id: int, quantity: int): (r: seq<CartItem>)
    ensures |r| == |items|
    ensures forall k :: 0 <= k < |items| ==>
      r[k] == if items[k].productId == id
              then items[k].(quantity := items[k].quantity + quantity)
              else items[k]
  {
    if |items| == 0 then []
    else
      var head := if items[0].productId == id
                  then items[0].(quantity := items[0].quantity + quantity)
                  else items[0];
      [head] + AddToMatching(items[1..], id, quantity)
  }

  /** `map` that sets the quantity of every line of product `id`. */
  function SetMatching(items: seq<CartItem>, id: int, quantity: int): (r: seq<CartItem>)
    ensures |r| == |items|
    ensures forall k :: 0 <= k < |items| ==>
      r[k] == if items[k].productId == id then items[k].(quantity := quantity) else items[k]
  {
    if |items| == 0 then []
    else
      var head := if items[0].productId == id then items[0].(quantity := quantity) else items[0];
      [head] + SetMatching(items[1..], id, quantity)
  }

  /** `filter` that keeps the lines of every product except `id`. */
  function RemoveItems(items: seq<CartItem>, id: int): (r: seq<CartItem>)
    ensures |r| <= |items|
    ensures Absent(r, id)
  {
    if |items| == 0 then []
    else (if items[0].productId == id then [] else [items[0]]) + RemoveItems(items[1..], id)
  }

  /** The new line sequence produced by `addToCart(product, quantity)`. */
  function AddItems(items: seq<CartItem>, product: Product, quantity: int): (r: seq<CartItem>)
    ensures quantity > 0 ==> Find(r, product.productId).Some?
  {
    if quantity <= 0 then items
    else if Find(items, product.productId).Some? then AddToMatching(items, product.productId, quantity)
    else
      var r := items + [NewItem(product, quantity)];
      assert r[|items|].productId == product.productId;
      r
  }

  /** The new line sequence produced by `updateQuantity(id, quantity)`. */
  function UpdateItems(items: seq<CartItem>, id: int, quantity: int): seq<CartItem> {
    if quantity <= 0 then RemoveItems(items, id) else SetMatching(items, id, quantity)
  }

  // ---------------------------------------------------------------------
  // Derived totals, left folds over the lines as `reduce` computes them
  // ---------------------------------------------------------------------

  /** Unit price after discount; a missing or zero discount is "no discount". */
  function UnitPrice(item: CartItem): real {
    if item.discount.Some? && item.discount.value != 0.0
    then item.price * (1.0 - item.discount.value)
    else item.price
  }

  /** `cartItemCount`: the sum of the quantities. */
  function ItemCount(items: seq<CartItem>): (n: int)
    ensures AllPositive(items) ==> n >= |items|
  {
    if |items| == 0 then 0
    else ItemCount(items[..|items| - 1]) + items[|items| - 1].quantity
  }

  /** What one line adds to `cartTotal`: unit price times quantity. */
  function LineAmount(item: CartItem): real {
    UnitPrice(item) * (item.quantity as real)
  }

  /** `cartTotal`: the sum of the line amounts. */
  function CartTotal(items: seq<CartItem>): real {
    if |items| == 0 then 0.0
    else CartTotal(items[..|items| - 1]) + LineAmount(items[|items| - 1])
  }

  /** `shippingCost`: free from the threshold on, a flat fee below it. */
  function ShippingCost(items: seq<CartItem>): (s: real)
    ensures s == 0.0 <==> CartTotal(items) >= FREE_SHIPPING_THRESHOLD
    ensures s == 0.0 || s == SHIPPING_COST
  {
    if CartTotal(items) >= FREE_SHIPPING_THRESHOLD then 0.0 else SHIPPING_COST
  }

  /** `finalTotal`: subtotal plus shipping. */
  function FinalTotal(items: seq<CartItem>): (f: real)
    ensures CartTotal(items) >= FREE_SHIPPING_THRESHOLD ==> f == CartTotal(items)
    ensures CartTotal(items) < FREE_SHIPPING_THRESHOLD ==> f == CartTotal(items) + SHIPPING_COST
    ensures CartTotal(items) >= 0.0 ==> f >= SHIPPING_COST
  {
    CartTotal(items) + ShippingCost(items)
  }

  // ---------------------------------------------------------------------
  // Lemmas about the folds
  // ---------------------------------------------------------------------

  /** A line with a non-negative price and a discount of at most 100% has a
      non-negative unit price, and a non-negative discount never raises it. */
  lemma UnitPriceBounds(x: CartItem)
    requires x.price >= 0.0 && (x.discount.Some? ==> x.discount.value <= 1.0)
    ensures 0.0 <= UnitPrice(x)
    ensures (x.discount.Some? ==> x.discount.value >= 0.0) ==> UnitPrice(x) <= x.price
  {
  }

  /** With non-negative prices, discounts of at most 100% and non-negative
      quantities, the subtotal is never negative and the final total is at
      least the shipping fee. */
  lemma {:induction false} CartTotalNonNegative(items: seq<CartItem>)
    requires forall k :: 0 <= k < |items| ==>
      items[k].price >= 0.0 && (items[k].discount.Some? ==> items[k].discount.value <= 1.0) &&
      items[k].quantity >= 0
    ensures CartTotal(items) >= 0.0
    ensures FinalTotal(items) >= SHIPPING_COST
  {
    if |items| > 0 {
      var last := items[|items| - 1];
      CartTotalNonNegative(items[..|items| - 1]);
      UnitPriceBounds(last);
      assert LineAmount(last) >= 0.0;
    }
  }

  lemma {:induction false} ItemCountConcat(a: seq<CartItem>, b: seq<CartItem>)
    ensures ItemCount(a + b) == ItemCount(a) + ItemCount(b)
  {
    if |b| == 0 {
      assert a + b == a;
    } else {
      ItemCountConcat(a, b[..|b| - 1]);
      assert (a + b)[..|a + b| - 1] == a + b[..|b| - 1];
    }
  }

  lemma {:induction false} CartTotalConcat(a: seq<CartItem>, b: seq<CartItem>)
    ensures CartTotal(a + b) == CartTotal(a) + CartTotal(b)
  {
    if |b| == 0 {
      assert a + b == a;
    } else {
      CartTotalConcat(a, b[..|b| - 1]);
      assert (a + b)[..|a + b| - 1] == a + b[..|b| - 1];
    }
  }

  lemma TotalsSingleton(x: CartItem)
    ensures ItemCount([x]) == x.quantity && CartTotal([x]) == LineAmount(x)
  {
    assert [x][..0] == [];
  }

  /** Both totals split around one line. */
  lemma TotalsSplitAt(items: seq<CartItem>, i: nat)
    requires i < |items|
    ensures ItemCount(items) == ItemCount(items[..i]) + items[i].quantity + ItemCount(items[i + 1..])
    ensures CartTotal(items) == CartTotal(items[..i]) + LineAmount(items[i]) + CartTotal(items[i + 1..])
  {
    var front, x, back := items[..i], items[i], items[i + 1..];
    assert items == front + [x] + back;
    ItemCountConcat(front + [x], back);
    ItemCountConcat(front, [x]);
    CartTotalConcat(front + [x], back);
    CartTotalConcat(front, [x]);
    TotalsSingleton(x);
  }

  /** Adding `q` units to a line adds the amount of `q` units at the same
      unit price. */
  lemma AddUnits(x: CartItem, q: int)
    ensures LineAmount(x.(quantity := x.quantity + q)) == LineAmount(x) + LineAmount(x.(quantity := q))
  {
    var u := UnitPrice(x);
    assert u * ((x.quantity + q) as real) == u * (x.quantity as real) + u * (q as real);
  }

  /** Replacing one line changes the totals by that line's contribution only. */
  lemma TotalsReplaceAt(items: seq<CartItem>, i: nat, x: CartItem)
    requires i < |items|
    ensures ItemCount(items[i := x]) == ItemCount(items) - items[i].quantity + x.quantity
    ensures CartTotal(items[i := x]) == CartTotal(items) - LineAmount(items[i]) + LineAmount(x)
  {
    var r := items[i := x];
    assert r[..i] == items[..i];
    assert r[i + 1..] == items[i + 1..];
    TotalsSplitAt(items, i);
    TotalsSplitAt(r, i);
  }

  // ---------------------------------------------------------------------
  // addToCart
  // ---------------------------------------------------------------------

  /** A quantity of zero or less leaves the cart unchanged. */
  lemma AddNonPositiveIsNoOp(items: seq<CartItem>, product: Product, quantity: int)
    requires quantity <= 0
    ensures AddItems(items, product, quantity) == items
  {
  }

  /** Adding a product already present grows exactly that line by `quantity`;
      its snapshot fields, the length and every other line stay as they were. */
  lemma AddExisting(items: seq<CartItem>, product: Product, quantity: int, i: nat)
    requires UniqueIds(items) && quantity > 0
    requires i < |items| && items[i].productId == product.productId
    ensures AddItems(items, product, quantity)
            == items[i := items[i].(quantity := items[i].quantity + quantity)]
  {
    var r := AddItems(items, product, quantity);
    assert Find(items, product.productId).Some? by {
      assert !Absent(items, product.productId);
    }
    assert r == AddToMatching(items, product.productId, quantity);
    assert |r| == |items|;
    forall k | 0 <= k < |items|
      ensures r[k] == items[i := items[i].(quantity := items[i].quantity + quantity)][k]
    {
      if k != i {
        assert items[k].productId != product.productId;
      }
    }
  }

  /** Adding an absent product appends one snapshot line at the end. */
  lemma AddAbsent(items: seq<CartItem>, product: Product, quantity: int)
    requires quantity > 0 && Absent(items, product.productId)
    ensures AddItems(items, product, quantity) == items + [NewItem(product, quantity)]
    ensures var n := NewItem(product, quantity);
            n.productId == product.productId && n.name == product.name
            && n.price == product.price && n.imgName == product.imgName
            && n.discount == product.discount && n.quantity == quantity
  {
  }

  lemma AddPreservesWellFormed(items: seq<CartItem>, product: Product, quantity: int)
    requires WellFormed(items)
    ensures WellFormed(AddItems(items, product, quantity))
  {
    var id := product.productId;
    if quantity > 0 {
      match Find(items, id)
      case Some(i) =>
        AddExisting(items, product, quantity, i);
      case None =>
        var r := items + [NewItem(product, quantity)];
        assert forall k :: 0 <= k < |items| ==> r[k] == items[k];
    }
  }

  /** Two additions of the same product add up, and the snapshot taken by
      the first addition is the one kept. */
  lemma AddTwice(items: seq<CartItem>, product: Product, again: Product, a: int, b: int)
    requires a > 0 && b > 0 && again.productId == product.productId
    ensures AddItems(AddItems(items, product, a), again, b) == AddItems(items, product, a + b)
  {
    var id := product.productId;
    var once := AddItems(items, product, a);
    assert AddItems(once, again, b) == AddToMatching(once, id, b) by {
      assert Find(once, id).Some?;
    }
    if Find(items, id).Some? {
      GrowTwice(items, id, a, b);
    } else {
      GrowAppended(items, NewItem(product, a), b);
    }
  }

  lemma GrowTwice(items: seq<CartItem>, id: int, a: int, b: int)
    ensures AddToMatching(AddToMatching(items, id, a), id, b) == AddToMatching(items, id, a + b)
  {
    var twice := AddToMatching(AddToMatching(items, id, a), id, b);
    var both := AddToMatching(items, id, a + b);
    assert |twice| == |both|;
    forall k | 0 <= k < |items| ensures twice[k] == both[k] { }
  }

  lemma GrowAppended(items: seq<CartItem>, x: CartItem, b: int)
    requires Absent(items, x.productId)
    ensures AddToMatching(items + [x], x.productId, b) == items + [x.(quantity := x.quantity + b)]
  {
    var grown := AddToMatching(items + [x], x.productId, b);
    var expected := items + [x.(quantity := x.quantity + b)];
    assert |grown| == |expected|;
    forall k | 0 <= k < |expected| ensures grown[k] == expected[k] {
      if k < |items| {
        assert (items + [x])[k] == items[k];
      }
    }
  }

  /** A positive addition raises `cartItemCount` by exactly `quantity`. */
  lemma AddItemCount(items: seq<CartItem>, product: Product, quantity: int)
    requires UniqueIds(items) && quantity > 0
    ensures ItemCount(AddItems(items, product, quantity)) == ItemCount(items) + quantity
  {
    match Find(items, product.productId)
    case Some(i) =>
      AddExisting(items, product, quantity, i);
      TotalsReplaceAt(items, i, items[i].(quantity := items[i].quantity + quantity));
    case None =>
      ItemCountConcat(items, [NewItem(product, quantity)]);
      TotalsSingleton(NewItem(product, quantity));
  }

  /** Adding `quantity` of a product already present raises `cartTotal` by
      that many units at the line's snapshot price, not the product's
      current one. */
  lemma AddCartTotalExisting(items: seq<CartItem>, product: Product, quantity: int, i: nat)
    requires UniqueIds(items) && quantity > 0
    requires i < |items| && items[i].productId == product.productId
    ensures CartTotal(AddItems(items, product, quantity))
            == CartTotal(items) + LineAmount(items[i].(quantity := quantity))
  {
    var x := items[i];
    AddExisting(items, product, quantity, i);
    TotalsReplaceAt(items, i, x.(quantity := x.quantity + quantity));
    AddUnits(x, quantity);
  }

  /** Adding `quantity` of a new product raises `cartTotal` by that many
      units at the product's price. */
  lemma AddCartTotalNew(items: seq<CartItem>, product: Product, quantity: int)
    requires quantity > 0 && Absent(items, product.productId)
    ensures CartTotal(AddItems(items, product, quantity))
            == CartTotal(items) + LineAmount(NewItem(product, quantity))
  {
    CartTotalConcat(items, [NewItem(product, quantity)]);
    TotalsSingleton(NewItem(product, quantity));
  }

  // ---------------------------------------------------------------------
  // removeFromCart
  // ---------------------------------------------------------------------

  /** Removing an id no line carries changes nothing. */
  lemma {:induction false} RemoveAbsent(items: seq<CartItem>, id: int)
    requires Absent(items, id)
    ensures RemoveItems(items, id) == items
  {
    if |items| > 0 {
      RemoveAbsent(items[1..], id);
      assert items == [items[0]] + items[1..];
    }
  }

  /** `filter` keeps exactly the lines of the other products. */
  lemma {:induction false} RemoveKeepsOthers(items: seq<CartItem>, id: int)
    ensures forall x :: x in RemoveItems(items, id) <==> x in items && x.productId != id
  {
    if |items| > 0 {
      RemoveKeepsOthers(items[1..], id);
      assert items == [items[0]] + items[1..];
    }
  }

  /** `filter` distributes over concatenation, so the kept lines keep their order. */
  lemma {:induction false} RemoveConcat(a: seq<CartItem>, b: seq<CartItem>, id: int)
    ensures RemoveItems(a + b, id) == RemoveItems(a, id) + RemoveItems(b, id)
  {
    if |a| > 0 {
      RemoveConcat(a[1..], b, id);
      assert (a + b)[1..] == a[1..] + b;
    } else {
      assert a + b == b;
    }
  }

  /** In a cart with unique ids, removing a present product deletes exactly
      its line and keeps the others in order. */
  lemma RemovePresent(items: seq<CartItem>, i: nat)
    requires UniqueIds(items) && i < |items|
    ensures RemoveItems(items, items[i].productId) == items[..i] + items[i + 1..]
  {
    OthersAbsent(items, i);
    RemoveAt(items, i);
  }

  lemma RemoveAt(items: seq<CartItem>, i: nat)
    requires i < |items|
    requires Absent(items[..i], items[i].productId) && Absent(items[i + 1..], items[i].productId)
    ensures RemoveItems(items, items[i].productId) == items[..i] + items[i + 1..]
  {
    assert items == items[..i] + ([items[i]] + items[i + 1..]);
    RemoveBetween(items[..i], items[i], items[i + 1..]);
  }

  /** Removing the one line of its product from between two runs of other
      products' lines joins the two runs. */
  lemma RemoveBetween(front: seq<CartItem>, x: CartItem, back: seq<CartItem>)
    requires Absent(front, x.productId) && Absent(back, x.productId)
    ensures RemoveItems(front + ([x] + back), x.productId) == front + back
  {
    var id := x.productId;
    var rest := [x] + back;
    assert RemoveItems(front + rest, id) == RemoveItems(front, id) + RemoveItems(rest, id) by {
      RemoveConcat(front, rest, id);
    }
    assert RemoveItems(front, id) == front by {
      RemoveAbsent(front, id);
    }
    assert RemoveItems(rest, id) == back by {
      assert rest[1..] == back;
      RemoveAbsent(back, id);
    }
  }

  /** With unique ids, the lines before and after a line do not carry its id. */
  lemma OthersAbsent(items: seq<CartItem>, i: nat)
    requires UniqueIds(items) && i < |items|
    ensures Absent(items[..i], items[i].productId) && Absent(items[i + 1..], items[i].productId)
  {
    var id := items[i].productId;
    forall k | 0 <= k < i ensures items[..i][k].productId != id {
      assert items[..i][k] == items[k];
    }
    var back := items[i + 1..];
    forall k | 0 <= k < |back| ensures back[k].productId != id {
      assert back[k] == items[i + 1 + k];
    }
  }

  /** Removing twice is removing once. */
  lemma RemoveIdempotent(items: seq<CartItem>, id: int)
    ensures RemoveItems(RemoveItems(items, id), id) == RemoveItems(items, id)
  {
    RemoveAbsent(RemoveItems(items, id), id);
  }

  lemma {:induction false} RemovePreservesWellFormed(items: seq<CartItem>, id: int)
    requires WellFormed(items)
    ensures WellFormed(RemoveItems(items, id))
  {
    if |items| > 0 {
      RemovePreservesWellFormed(items[1..], id);
      RemoveKeepsOthers(items[1..], id);
      var rest := RemoveItems(items[1..], id);
      var r := RemoveItems(items, id);
      if items[0].productId != id {
        assert r == [items[0]] + rest;
        forall k | 0 <= k < |rest| ensures rest[k].productId != items[0].productId {
          assert rest[k] in rest;
          var j :| 0 <= j < |items[1..]| && items[1..][j] == rest[k];
          assert items[j + 1] == rest[k];
        }
      } else {
        assert r == rest;
      }
    }
  }

  /** Removing a present line lowers both totals by its contribution. */
  lemma RemoveTotals(items: seq<CartItem>, i: nat)
    requires UniqueIds(items) && i < |items|
    ensures ItemCount(RemoveItems(items, items[i].productId)) == ItemCount(items) - items[i].quantity
    ensures CartTotal(RemoveItems(items, items[i].productId)) == CartTotal(items) - LineAmount(items[i])
  {
    RemovePresent(items, i);
    TotalsSplitAt(items, i);
    ItemCountConcat(items[..i], items[i + 1..]);
    CartTotalConcat(items[..i], items[i + 1..]);
  }

  // ---------------------------------------------------------------------
  // updateQuantity
  // ---------------------------------------------------------------------

  /** A new quantity of zero or less is a removal. */
  lemma UpdateNonPositiveIsRemove(items: seq<CartItem>, id: int, quantity: int)
    requires quantity <= 0
    ensures UpdateItems(items, id, quantity) == RemoveItems(items, id)
  {
  }

  /** A positive quantity replaces (does not add to) the line's quantity,
      and nothing else changes. */
  lemma UpdatePresent(items: seq<CartItem>, i: nat, quantity: int)
    requires UniqueIds(items) && i < |items| && quantity > 0
    ensures UpdateItems(items, items[i].productId, quantity) == items[i := items[i].(quantity := quantity)]
  {
    var r := UpdateItems(items, items[i].productId, quantity);
    assert |r| == |items|;
    forall k | 0 <= k < |items| ensures r[k] == items[i := items[i].(quantity := quantity)][k] {
      if k != i {
        assert items[k].productId != items[i].productId;
      }
    }
  }

  /** Updating a product that is not in the cart creates nothing. */
  lemma UpdateAbsent(items: seq<CartItem>, id: int, quantity: int)
    requires Absent(items, id)
    ensures UpdateItems(items, id, quantity) == items
  {
    if quantity <= 0 {
      RemoveAbsent(items, id);
    } else {
      var r := UpdateItems(items, id, quantity);
      assert |r| == |items|;
    }
  }

  lemma UpdatePreservesWellFormed(items: seq<CartItem>, id: int, quantity: int)
    requires WellFormed(items)
    ensures WellFormed(UpdateItems(items, id, quantity))
  {
    if quantity <= 0 {
      RemovePreservesWellFormed(items, id);
    } else {
      var r := SetMatching(items, id, quantity);
      assert forall k :: 0 <= k < |items| ==> r[k].productId == items[k].productId;
    }
  }

  /** Updating a present line to `quantity` moves the totals from its old
      quantity to the new one. */
  lemma UpdateTotals(items: seq<CartItem>, i: nat, quantity: int)
    requires UniqueIds(items) && i < |items| && quantity > 0
    ensures ItemCount(UpdateItems(items, items[i].productId, quantity))
            == ItemCount(items) - items[i].quantity + quantity
    ensures CartTotal(UpdateItems(items, items[i].productId, quantity))
            == CartTotal(items) - LineAmount(items[i]) + LineAmount(items[i].(quantity := quantity))
  {
    var x := items[i];
    var y := x.(quantity := quantity);
    var r := UpdateItems(items, x.productId, quantity);
    UpdatePresent(items, i, quantity);
    assert r == items[i := y];
    TotalsReplaceAt(items, i, y);
  }

  // ---------------------------------------------------------------------
  // clearCart and the totals of the empty cart
  // ---------------------------------------------------------------------

  /** The empty cart is well formed, counts nothing, costs nothing and
      pays the flat fee. */
  lemma ClearedTotals()
    ensures WellFormed([])
    ensures ItemCount([]) == 0 && CartTotal([]) == 0.0
    ensures ShippingCost([]) == SHIPPING_COST && FinalTotal([]) == SHIPPING_COST
  {
  }

  /** `item.discount ? price * (1 - discount) : price` is the same as always
      applying the discount with a missing one read as zero. */
  lemma UnitPriceUniform(item: CartItem)
    ensures UnitPrice(item) == item.price * (1.0 - if item.discount.Some? then item.discount.value else 0.0)
  {
  }

  /** A cart with no lines counts zero items, and a cart of positive
      quantities with lines counts at least one. */
  lemma ItemCountZeroIffEmpty(items: seq<CartItem>)
    requires AllPositive(items)
    ensures ItemCount(items) == 0 <==> items == []
  {
  }

  // ---------------------------------------------------------------------
  // Worked scenarios
  // ---------------------------------------------------------------------

  /** Two units at 50 with a zero discount reach the free-shipping threshold. */
  lemma ScenarioFreeShipping(product: Product)
    requires product.productId == 1 && product.price == 50.0 && product.discount == Some(0.0)
    ensures var items := AddItems([], product, 2);
            CartTotal(items) == 100.0 && ShippingCost(items) == 0.0 && FinalTotal(items) == 100.0
  {
    var items := AddItems([], product, 2);
    assert items == [NewItem(product, 2)];
    assert items[..0] == [];
  }

  /** One unit at 40 with a quarter off costs 30 and pays the flat fee. */
  lemma ScenarioDiscountedLine(product: Product)
    requires product.productId == 2 && product.price == 40.0 && product.discount == Some(0.25)
    ensures var items := AddItems([], product, 1);
            UnitPrice(items[0]) == 30.0 && CartTotal(items) == 30.0
            && ShippingCost(items) == SHIPPING_COST && FinalTotal(items) == 55.0
  {
    var items := AddItems([], product, 1);
    assert items == [NewItem(product, 1)];
    assert items[..0] == [];
  }

  /** Adding two and then setting five leaves five, not seven. */
  lemma ScenarioAbsoluteUpdate(product: Product)
    ensures UpdateItems(AddItems([], product, 2), product.productId, 5) == [NewItem(product, 5)]
  {
    var items := AddItems([], product, 2);
    assert items == [NewItem(product, 2)];
    UpdatePresent(items, 0, 5);
  }

  // ---------------------------------------------------------------------
  // The provider: the mutable state behind the context
  // ---------------------------------------------------------------------

  /** Holds `cartItems`; each mutator replaces the whole sequence. */
  class CartProvider {
    var cartItems: seq<CartItem>

    /** Starts from what storage yielded, or empty when nothing was stored
        or it could not be read. */
    constructor (saved: Option<seq<CartItem>>)
      ensures cartItems == if saved.Some? then saved.value else []
    {
      cartItems := if saved.Some? then saved.value else [];
    }

    method AddToCart(product: Product, quantity: int)
      modifies this
      ensures cartItems == AddItems(old(cartItems), product, quantity)
      ensures quantity <= 0 ==> cartItems == old(cartItems)
      ensures WellFormed(old(cartItems)) ==> WellFormed(cartItems)
      ensures UniqueIds(old(cartItems)) && quantity > 0 ==>
              ItemCount(cartItems) == ItemCount(old(cartItems)) + quantity
    {
      if quantity <= 0 {
        return;
      }
      var existing := Find(cartItems, product.productId);
      if existing.Some? {
        cartItems := AddToMatching(cartItems, product.productId, quantity);
      } else {
        cartItems := cartItems + [NewItem(product, quantity)];
      }
      if WellFormed(old(cartItems)) {
        AddPreservesWellFormed(old(cartItems), product, quantity);
      }
      if UniqueIds(old(cartItems)) {
        AddItemCount(old(cartItems), product, quantity);
      }
    }

    method RemoveFromCart(productId: int)
      modifies this
      ensures cartItems == RemoveItems(old(cartItems), productId)
      ensures Absent(cartItems, productId)
      ensures Absent(old(cartItems), productId) ==> cartItems == old(cartItems)
      ensures WellFormed(old(cartItems)) ==> WellFormed(cartItems)
    {
      cartItems := RemoveItems(cartItems, productId);
      if Absent(old(cartItems), productId) {
        RemoveAbsent(old(cartItems), productId);
      }
      if WellFormed(old(cartItems)) {
        RemovePreservesWellFormed(old(cartItems), productId);
      }
    }

    method UpdateQuantity(productId: int, quantity: int)
      modifies this
      ensures cartItems == UpdateItems(old(cartItems), productId, quantity)
      ensures Absent(old(cartItems), productId) ==> cartItems == old(cartItems)
      ensures WellFormed(old(cartItems)) ==> WellFormed(cartItems)
    {
      if quantity <= 0 {
        RemoveFromCart(productId);
        return;
      }
      cartItems := SetMatching(cartItems, productId, quantity);
      if Absent(old(cartItems), productId) {
        UpdateAbsent(old(cartItems), productId, quantity);
      }
      if WellFormed(old(cartItems)) {
        UpdatePreservesWellFormed(old(cartItems), productId, quantity);
      }
    }

    method ClearCart()
      modifies this
      ensures cartItems == [] && WellFormed(cartItems)
      ensures ItemCount(cartItems) == 0 && FinalTotal(cartItems) == SHIPPING_COST
    {
      cartItems := [];
    }
  }
}
