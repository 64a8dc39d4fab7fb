/** `CartItemService`: adding, removing and re-quantifying cart lines. The
    lines are values inside the stored cart; a setter on a line the cart holds
    becomes a replacement of that line in the cart's sequence. */
module CartItemService {
  import opened Wrappers
  import opened Domain
  import opened Repositories
  import CartService
  import ProductService

  /** `items.stream().filter(item -> item's product id == productId).findFirst()`,
      as the index of the first matching line. */
  function FindLine(items: seq<CartItem>, productId: nat): (r: Option<nat>)
    ensures r.Some? ==> r.value < |items| && items[r.value].productId == productId
    ensures r.Some? ==> forall j :: 0 <= j < r.value ==> items[j].productId != productId
    ensures r.None? <==> !HasProduct(items, productId)
  {
    if items == [] then None
    else if items[0].productId == productId then Some(0)
    else
      match FindLine(items[1..], productId)
      case Some(i) => assert items[1..][i] == items[i + 1]; Some(i + 1)
      case None =>
        assert forall j :: 1 <= j < |items| ==> items[j] == items[1..][j - 1];
        None
  }

  /** `CartItem.setTotalPrice()`: the line's total from its unit price and quantity. */
  function Repriced(line: CartItem): (r: CartItem)
    ensures Priced(r)
    ensures (r.productId, r.quantity, r.unitPrice) == (line.productId, line.quantity, line.unitPrice)
  {
    line.(totalPrice := LineTotal(line.unitPrice, line.quantity))
  }

  /** The cart's lines after `addItemToCart` with the product's current price:
      the first line of the product gains `quantity`, or a new line is appended. */
  function MergeLine(items: seq<CartItem>, productId: nat, quantity: int, price: int): (r: seq<CartItem>)
    ensures |r| == if HasProduct(items, productId) then |items| else |items| + 1
    ensures HasProduct(r, productId)
  {
    match FindLine(items, productId)
    case Some(i) =>
      var r := items[i := Repriced(items[i].(quantity := items[i].quantity + quantity))];
      assert r[i].productId == productId;
      r
    case None =>
      var r := items + [Repriced(CartItem(productId, quantity, price, 0))];
      assert r[|items|].productId == productId;
      r
  }

  /** The cart's lines after `removeItemFromCart`: the first line of the product is gone. */
  function RemoveLine(items: seq<CartItem>, productId: nat): (r: seq<CartItem>)
    ensures |r| == if HasProduct(items, productId) then |items| - 1 else |items|
  {
    match FindLine(items, productId)
    case Some(i) => items[..i] + items[i + 1..]
    case None => items
  }

  /** The cart's lines after `updateItemQuantity`: the first line of the product
      gets the new quantity and the product's current price (`currentPrice`;
      when the product is no longer stored the line keeps its unit price). */
  function RefreshLine(items: seq<CartItem>, productId: nat, quantity: int, currentPrice: Option<int>): (r: seq<CartItem>)
    ensures |r| == |items|
    ensures forall k :: 0 <= k < |r| ==> r[k].productId == items[k].productId
  {
    match FindLine(items, productId)
    case Some(i) => items[i := Repriced(items[i].(quantity := quantity, unitPrice := currentPrice.GetOr(items[i].unitPrice)))]
    case None => items
  }

  /** Adding grows the product's quantity by `quantity` and leaves every
      other product's quantity as it was. */
  lemma MergeLineQuantities(items: seq<CartItem>, productId: nat, quantity: int, price: int)
    ensures var r := MergeLine(items, productId, quantity, price);
      && QuantityOf(r, productId) == QuantityOf(items, productId) + quantity
      && (forall q: nat :: q != productId ==> QuantityOf(r, q) == QuantityOf(items, q))
  {
    var r := MergeLine(items, productId, quantity, price);
    match FindLine(items, productId)
    case Some(i) =>
      var line := Repriced(items[i].(quantity := items[i].quantity + quantity));
      forall q: nat ensures QuantityOf(r, q) == QuantityOf(items, q) - Contribution(items[i], q) + Contribution(line, q) {
        QuantityOfReplace(items, i, line, q);
      }
    case None =>
      var line := Repriced(CartItem(productId, quantity, price, 0));
      forall q: nat ensures QuantityOf(r, q) == QuantityOf(items, q) + Contribution(line, q) {
        QuantityOfAppend(items, [line], q);
      }
  }

  /** Adding a product that has a line changes only that line, keeping its
      unit price; adding one that has none appends exactly one line priced
      at the product's current price. */
  lemma MergeLineShape(items: seq<CartItem>, productId: nat, quantity: int, price: int)
    ensures var r := MergeLine(items, productId, quantity, price);
      && (HasProduct(items, productId) ==>
            var i := FindLine(items, productId).value;
            && |r| == |items|
            && r[i].productId == productId
            && r[i].unitPrice == items[i].unitPrice && r[i].quantity == items[i].quantity + quantity
            && r[i].totalPrice == LineTotal(r[i].unitPrice, r[i].quantity)
            && (forall k :: 0 <= k < |items| && k != i ==> r[k] == items[k]))
      && (!HasProduct(items, productId) ==>
            r == items + [CartItem(productId, quantity, price, LineTotal(price, quantity))])
  {
  }

  /** Adding keeps one line per product and every line priced. */
  lemma MergeLineKeepsInvariants(items: seq<CartItem>, productId: nat, quantity: int, price: int)
    ensures var r := MergeLine(items, productId, quantity, price);
      && (UniqueLines(items) ==> UniqueLines(r))
      && (AllPriced(items) ==> AllPriced(r))
  {
  }

  /** Removing takes out exactly the first line of the product. */
  lemma RemoveLineShape(items: seq<CartItem>, productId: nat)
    requires HasProduct(items, productId)
    ensures var r := RemoveLine(items, productId);
      var i := FindLine(items, productId).value;
      && r == items[..i] + items[i + 1..]
      && |r| == |items| - 1
      && (forall k :: 0 <= k < i ==> r[k] == items[k])
      && (forall k :: i <= k < |r| ==> r[k] == items[k + 1])
  {
    var i := FindLine(items, productId).value;
    assert RemoveLine(items, productId) == items[..i] + items[i + 1..];
    DropAtShape(items, i);
  }

  /** The lines without the one at `i`: those before it keep their place and
      those after it move down by one. */
  lemma DropAtShape(items: seq<CartItem>, i: nat)
    requires i < |items|
    ensures var r := items[..i] + items[i + 1..];
      && |r| == |items| - 1
      && (forall k :: 0 <= k < i ==> r[k] == items[k])
      && (forall k :: i <= k < |r| ==> r[k] == items[k + 1])
  {
  }

  /** Removing lowers the product's quantity by the removed line's and keeps
      every other product's quantity. */
  lemma RemoveLineQuantities(items: seq<CartItem>, productId: nat)
    requires HasProduct(items, productId)
    ensures var r := RemoveLine(items, productId);
      var i := FindLine(items, productId).value;
      && QuantityOf(r, productId) == QuantityOf(items, productId) - items[i].quantity
      && (forall q: nat :: q != productId ==> QuantityOf(r, q) == QuantityOf(items, q))
  {
    var i := FindLine(items, productId).value;
    var r := items[..i] + items[i + 1..];
    assert RemoveLine(items, productId) == r;
    forall q: nat ensures QuantityOf(r, q) == QuantityOf(items, q) - Contribution(items[i], q) {
      QuantityOfRemove(items, i, q);
    }
  }

  /** Removing keeps the invariants; in a cart with one line per product it
      leaves no line and no quantity for the product. */
  lemma RemoveLineKeepsInvariants(items: seq<CartItem>, productId: nat)
    requires HasProduct(items, productId)
    ensures var r := RemoveLine(items, productId);
      && (UniqueLines(items) ==> UniqueLines(r) && !HasProduct(r, productId) && QuantityOf(r, productId) == 0)
      && (AllPriced(items) ==> AllPriced(r))
  {
    var r := RemoveLine(items, productId);
    RemoveLineShape(items, productId);
    if UniqueLines(items) {
      assert !HasProduct(r, productId);
      QuantityOfAbsent(r, productId);
    }
  }

  /** Updating touches only the first line of the product: its quantity is
      set and its unit price refreshed; all other lines stay, and a product
      with no line leaves the lines as they are. */
  lemma RefreshLineSpec(items: seq<CartItem>, productId: nat, quantity: int, currentPrice: Option<int>)
    ensures var r := RefreshLine(items, productId, quantity, currentPrice);
      && |r| == |items|
      && (!HasProduct(items, productId) ==> r == items)
      && (HasProduct(items, productId) ==>
            var i := FindLine(items, productId).value;
            && r[i].quantity == quantity && r[i].productId == productId
            && r[i].unitPrice == currentPrice.GetOr(items[i].unitPrice)
            && (forall k :: 0 <= k < |items| && k != i ==> r[k] == items[k]))
      && (forall q: nat :: q != productId ==> QuantityOf(r, q) == QuantityOf(items, q))
      && (UniqueLines(items) ==> UniqueLines(r))
      && (UniqueLines(items) && HasProduct(items, productId) ==> QuantityOf(r, productId) == quantity)
      && (AllPriced(items) ==> AllPriced(r))
  {
    var r := RefreshLine(items, productId, quantity, currentPrice);
    match FindLine(items, productId)
    case Some(i) =>
      var line := Repriced(items[i].(quantity := quantity, unitPrice := currentPrice.GetOr(items[i].unitPrice)));
      forall q: nat ensures QuantityOf(r, q) == QuantityOf(items, q) - Contribution(items[i], q) + Contribution(line, q) {
        QuantityOfReplace(items, i, line, q);
      }
      if UniqueLines(items) {
        QuantityOfUnique(r, i);
      }
    case None =>
  }

  /** `getCartItem`: the first line of the product in the cart; "Cart not
      found" or "item not found" otherwise. */
  method GetCartItem(s: Store, cartId: nat, productId: nat) returns (r: Result<CartItem>)
    ensures cartId !in s.carts ==> r == Err(ResourceNotFound("Cart not found"))
    ensures cartId in s.carts && !HasProduct(s.carts[cartId].items, productId) ==>
      r == Err(ResourceNotFound("item not found"))
    ensures cartId in s.carts && HasProduct(s.carts[cartId].items, productId) ==>
      var items := s.carts[cartId].items;
      exists i :: 0 <= i < |items| && r == Ok(items[i]) && items[i].productId == productId
        && forall j :: 0 <= j < i ==> items[j].productId != productId
  {
    var got := CartService.GetCart(s, cartId);
    if got.Err? {
      return Err(got.error);
    }
    var found := FindLine(got.value.items, productId);
    if found.None? {
      return Err(ResourceNotFound("item not found"));
    }
    r := Ok(got.value.items[found.value]);
  }

  /** `addItemToCart`: an unknown cart or product throws and nothing changes;
      otherwise the product is merged into the cart at its current price and
      the cart saved. */
  method AddItemToCart(s: Store, cartId: nat, productId: nat, quantity: int) returns (r: Outcome)
    requires s.Valid()
    modifies s
    ensures s.Valid()
    ensures s.CatalogueUnchanged() && s.UsersUnchanged() && s.orders == old(s.orders)
    ensures s.nextCartId == old(s.nextCartId)
    ensures cartId !in old(s.carts) ==>
      r == Failed(ResourceNotFound("Cart not found")) && s.carts == old(s.carts)
    ensures cartId in old(s.carts) && productId !in s.products ==>
      r == Failed(ResourceNotFound("Product not found")) && s.carts == old(s.carts)
    ensures cartId in old(s.carts) && productId in s.products ==>
      var cart := old(s.carts[cartId]);
      && r == Done
      && s.carts == old(s.carts)[cartId := cart.(items := MergeLine(cart.items, productId, quantity, s.products[productId].price))]
  {
    var gotCart := CartService.GetCart(s, cartId);
    if gotCart.Err? {
      return Failed(gotCart.error);
    }
    var gotProduct := ProductService.GetProductById(s, productId);
    if gotProduct.Err? {
      return Failed(gotProduct.error);
    }
    var cart, product := gotCart.value, gotProduct.value;
    var found := FindLine(cart.items, productId);
    var item: CartItem;
    if found.None? {
      item := CartItem(productId, quantity, product.price, 0);
    } else {
      item := cart.items[found.value];
      item := item.(quantity := item.quantity + quantity);
    }
    item := Repriced(item);
    // `cart.addItem` appends a new line; an existing line is already in the cart.
    if found.None? {
      cart := cart.(items := cart.items + [item]);
    } else {
      cart := cart.(items := cart.items[found.value := item]);
    }
    assert cart.items == MergeLine(s.carts[cartId].items, productId, quantity, product.price);
    MergeLineKeepsInvariants(s.carts[cartId].items, productId, quantity, product.price);
    s.SaveCart(cartId, cart);
    r := Done;
  }

  /** `removeItemFromCart`: "Cart not found" or "item not found" leave the
      store unchanged; otherwise exactly the first line of the product is
      removed and the cart saved. The stored total is not recomputed. */
  method RemoveItemFromCart(s: Store, cartId: nat, productId: nat) returns (r: Outcome)
    requires s.Valid()
    modifies s
    ensures s.Valid()
    ensures s.CatalogueUnchanged() && s.UsersUnchanged() && s.orders == old(s.orders)
    ensures s.nextCartId == old(s.nextCartId)
    ensures cartId !in old(s.carts) ==>
      r == Failed(ResourceNotFound("Cart not found")) && s.carts == old(s.carts)
    ensures cartId in old(s.carts) && !HasProduct(old(s.carts[cartId].items), productId) ==>
      r == Failed(ResourceNotFound("item not found")) && s.carts == old(s.carts)
    ensures cartId in old(s.carts) && HasProduct(old(s.carts[cartId].items), productId) ==>
      var cart := old(s.carts[cartId]);
      && r == Done
      && s.carts == old(s.carts)[cartId := cart.(items := RemoveLine(cart.items, productId))]
      && !HasProduct(s.carts[cartId].items, productId)
  {
    var gotCart := CartService.GetCart(s, cartId);
    if gotCart.Err? {
      return Failed(gotCart.error);
    }
    var gotItem := GetCartItem(s, cartId, productId);
    if gotItem.Err? {
      return Failed(gotItem.error);
    }
    var cart := gotCart.value;
    var i := FindLine(cart.items, productId).value;
    // `cart.removeItem`: the line found by `getCartItem` leaves the collection.
    cart := cart.(items := cart.items[..i] + cart.items[i + 1..]);
    RemoveLineShape(s.carts[cartId].items, productId);
    RemoveLineKeepsInvariants(s.carts[cartId].items, productId);
    s.SaveCart(cartId, cart);
    r := Done;
  }

  /** `updateItemQuantity`: "Cart not found" leaves the store unchanged;
      otherwise the first line of the product (if any) gets the quantity and
      the product's current price, and the stored total becomes the sum of
      the line totals, even when no line matched. */
  method UpdateItemQuantity(s: Store, cartId: nat, productId: nat, quantity: int) returns (r: Outcome)
    requires s.Valid()
    modifies s
    ensures s.Valid()
    ensures s.CatalogueUnchanged() && s.UsersUnchanged() && s.orders == old(s.orders)
    ensures s.nextCartId == old(s.nextCartId)
    ensures cartId !in old(s.carts) ==>
      r == Failed(ResourceNotFound("Cart not found")) && s.carts == old(s.carts)
    ensures cartId in old(s.carts) ==>
      var cart := old(s.carts[cartId]);
      var price := if productId in s.products then Some(s.products[productId].price) else None;
      var items := RefreshLine(cart.items, productId, quantity, price);
      && r == Done
      && s.carts == old(s.carts)[cartId := Cart(cart.userId, items, SumTotals(items))]
  {
    var gotCart := CartService.GetCart(s, cartId);
    if gotCart.Err? {
      return Failed(gotCart.error);
    }
    var cart := gotCart.value;
    var found := FindLine(cart.items, productId);
    if found.Some? {
      var item := cart.items[found.value];
      var price := if item.productId in s.products then s.products[item.productId].price else item.unitPrice;
      item := item.(quantity := quantity);
      item := item.(unitPrice := price);
      item := Repriced(item);
      cart := cart.(items := cart.items[found.value := item]);
    }
    var totalAmount := SumTotals(cart.items);
    cart := cart.(totalAmount := totalAmount);
    RefreshLineSpec(s.carts[cartId].items, productId, quantity,
                    if productId in s.products then Some(s.products[productId].price) else None);
    s.SaveCart(cartId, cart);
    r := Done;
  }
}
