/** `CartService`: cart lookup, clearing, totals and get-or-create per user. */
module CartService {
  import opened Wrappers
  import opened Domain
  import opened Repositories

  /** Some stored cart belongs to `userId`. */
  predicate HasCart(carts: map<nat, Cart>, userId: nat) {
    exists c :: c in carts && carts[c].userId == Some(userId)
  }

  /** `getCart`: the stored cart, or "Cart not found". The source re-saves the
      cart with its own total, which changes nothing. */
  method GetCart(s: Store, id: nat) returns (r: Result<Cart>)
    ensures id in s.carts ==> r == Ok(s.carts[id])
    ensures id !in s.carts ==> r == Err(ResourceNotFound("Cart not found"))
  {
    if id !in s.carts {
      return Err(ResourceNotFound("Cart not found"));
    }
    var cart := s.carts[id];
    var totalAmount := cart.totalAmount;
    cart := cart.(totalAmount := totalAmount);
    r := Ok(cart);
  }

  /** `clearCart`: deletes the cart's lines and then the cart itself; an
      unknown id throws before anything changes. */
  method ClearCart(s: Store, id: nat) returns (r: Outcome)
    requires s.Valid()
    modifies s
    ensures s.Valid()
    ensures s.CatalogueUnchanged() && s.UsersUnchanged() && s.orders == old(s.orders)
    ensures s.nextCartId == old(s.nextCartId)
    ensures id !in old(s.carts) ==> r == Failed(ResourceNotFound("Cart not found")) && s.carts == old(s.carts)
    ensures id in old(s.carts) ==> r == Done && s.carts == old(s.carts) - {id} && id !in s.carts
  {
    var got := GetCart(s, id);
    if got.Err? {
      return Failed(got.error);
    }
    var cart := got.value;
    // Deleting the lines by cart id and clearing the collection empty the cart
    // in place before the cart row itself is deleted.
    cart := cart.(items := []);
    s.carts := s.carts[id := cart];
    s.carts := s.carts - {id};
    r := Done;
  }

  /** `getTotalPrice`: the stored total of the cart. */
  method GetTotalPrice(s: Store, id: nat) returns (r: Result<int>)
    ensures id in s.carts ==> r == Ok(s.carts[id].totalAmount)
    ensures id !in s.carts ==> r == Err(ResourceNotFound("Cart not found"))
  {
    var got := GetCart(s, id);
    if got.Err? {
      return Err(got.error);
    }
    r := Ok(got.value.totalAmount);
  }

  /** `getCartByUserId`: the id of the user's cart, or none. */
  method GetCartByUserId(s: Store, userId: nat) returns (cartId: Option<nat>)
    ensures cartId.Some? ==> cartId.value in s.carts && s.carts[cartId.value].userId == Some(userId)
    ensures cartId.None? <==> !HasCart(s.carts, userId)
  {
    if HasCart(s.carts, userId) {
      var c :| c in s.carts && s.carts[c].userId == Some(userId);
      cartId := Some(c);
    } else {
      cartId := None;
    }
  }

  /** `initializeNewCart`: get-or-create. The user's existing cart is
      returned unchanged; otherwise one new, empty cart bound to the user is
      saved. Either way the user then owns exactly one cart. */
  method InitializeNewCart(s: Store, userId: nat) returns (cartId: nat)
    requires s.Valid()
    requires userId in s.users
    modifies s
    ensures s.Valid()
    ensures s.CatalogueUnchanged() && s.UsersUnchanged() && s.orders == old(s.orders)
    ensures cartId in s.carts && s.carts[cartId].userId == Some(userId)
    ensures forall c :: c in s.carts && s.carts[c].userId == Some(userId) ==> c == cartId
    ensures HasCart(old(s.carts), userId) ==> s.CartsUnchanged()
    ensures !HasCart(old(s.carts), userId) ==>
      && cartId == old(s.nextCartId) && cartId !in old(s.carts)
      && s.carts == old(s.carts)[cartId := Cart(Some(userId), [], 0)]
      && s.nextCartId == old(s.nextCartId) + 1
  {
    var existing := GetCartByUserId(s, userId);
    if existing.Some? {
      return existing.value;
    }
    cartId := s.nextCartId;
    s.nextCartId := s.nextCartId + 1;
    s.carts := s.carts[cartId := Cart(Some(userId), [], 0)];
  }
}
