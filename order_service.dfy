/** `OrderService`: building orders from carts. Turning cart lines into order
    lines also draws down each product's inventory. */
module OrderService {
  import opened Wrappers
  import opened Domain
  import opened Repositories

  /** The order line built from a cart line: its product, quantity and unit price. */
  function ToOrderItem(line: CartItem): OrderItem {
    OrderItem(line.productId, line.quantity, line.unitPrice)
  }

  /** The order lines `createOrderItems` returns: one per cart line, in order. */
  function OrderItemsOf(lines: seq<CartItem>): (r: seq<OrderItem>)
    ensures |r| == |lines|
    ensures forall i :: 0 <= i < |lines| ==>
      r[i].productId == lines[i].productId && r[i].quantity == lines[i].quantity && r[i].price == lines[i].unitPrice
  {
    if lines == [] then []
    else OrderItemsOf(lines[..|lines| - 1]) + [ToOrderItem(lines[|lines| - 1])]
  }

  /** One cart line's effect on the product repository: the product's
      inventory drops by the line's quantity, with no lower bound. A product
      that is no longer stored is left alone. */
  function Decrement(products: map<nat, Product>, line: CartItem): map<nat, Product> {
    if line.productId in products then
      var p := products[line.productId];
      products[line.productId := p.(inventory := p.inventory - line.quantity)]
    else products
  }

  /** The product repository after all of a cart's lines were processed in
      order: no product is added or removed. */
  function DecrementAll(products: map<nat, Product>, lines: seq<CartItem>): (r: map<nat, Product>)
    ensures r.Keys == products.Keys
  {
    if lines == [] then products
    else Decrement(DecrementAll(products, lines[..|lines| - 1]), lines[|lines| - 1])
  }

  /** Placing the lines leaves the set of products as it was and lowers each
      product's inventory by the total quantity the cart holds of it, and by
      nothing else; products the cart does not mention are unchanged. */
  lemma {:induction false} DecrementAllSpec(products: map<nat, Product>, lines: seq<CartItem>)
    ensures DecrementAll(products, lines).Keys == products.Keys
    ensures forall p :: p in products ==>
      DecrementAll(products, lines)[p] == products[p].(inventory := products[p].inventory - QuantityOf(lines, p))
  {
    if lines != [] {
      DecrementAllSpec(products, lines[..|lines| - 1]);
    }
  }

  /** Products without a line in the cart keep their inventory. */
  lemma DecrementAllUntouched(products: map<nat, Product>, lines: seq<CartItem>, p: nat)
    requires p in products && !HasProduct(lines, p)
    ensures p in DecrementAll(products, lines) && DecrementAll(products, lines)[p] == products[p]
  {
    DecrementAllSpec(products, lines);
    QuantityOfAbsent(lines, p);
  }

  /** `calculateTotalAmount`: the sum of price times quantity over the order
      lines, folded from zero. */
  function CalculateTotalAmount(items: seq<OrderItem>): (r: int)
    ensures items == [] ==> r == 0
    ensures (forall i :: 0 <= i < |items| ==> items[i].price >= 0 && items[i].quantity >= 0) ==> r >= 0
  {
    if items == [] then 0
    else
      var init, last := items[..|items| - 1], items[|items| - 1];
      assert forall i :: 0 <= i < |init| ==> init[i] == items[i];
      CalculateTotalAmount(init) + last.price * last.quantity
  }

  /** The total of two lists of order lines together is the sum of their totals. */
  lemma {:induction false} CalculateTotalAmountAppend(a: seq<OrderItem>, b: seq<OrderItem>)
    ensures CalculateTotalAmount(a + b) == CalculateTotalAmount(a) + CalculateTotalAmount(b)
  {
    if b == [] {
      assert a + b == a;
    } else {
      CalculateTotalAmountAppend(a, b[..|b| - 1]);
      assert (a + b)[..|a + b| - 1] == a + b[..|b| - 1];
    }
  }

  /** The order total of a cart's order lines equals the sum of the cart's
      line totals, when every line total is unit price times quantity. */
  lemma {:induction false} OrderTotalMatchesCart(lines: seq<CartItem>)
    requires AllPriced(lines)
    ensures CalculateTotalAmount(OrderItemsOf(lines)) == SumTotals(lines)
  {
    if lines != [] {
      var init := lines[..|lines| - 1];
      assert AllPriced(init) by {
        forall k | 0 <= k < |init| ensures Priced(init[k]) {
          assert init[k] == lines[k];
        }
      }
      OrderTotalMatchesCart(init);
      assert Priced(lines[|lines| - 1]);
      var items := OrderItemsOf(lines);
      assert items[..|items| - 1] == OrderItemsOf(init);
    }
  }

  /** `createOrder`: a new order, PENDING, dated today; the user, the lines
      and the total are not set. */
  function CreateOrder(cart: Cart, today: nat): (o: Order)
    ensures o.status == Pending && o.orderDate == Some(today)
    ensures o.userId.None? && o.items == [] && o.totalAmount.None?
  {
    Order(None, Pending, Some(today), [], None)
  }

  /** `createOrderItems`: walks the cart's lines in order; each line lowers
      its product's inventory by its quantity, saves the product, and yields
      the order line with the cart line's quantity and unit price. */
  method CreateOrderItems(s: Store, cart: Cart) returns (orderItems: seq<OrderItem>)
    requires s.Valid()
    modifies s
    ensures s.Valid()
    ensures orderItems == OrderItemsOf(cart.items)
    ensures s.products == DecrementAll(old(s.products), cart.items)
    ensures s.categories == old(s.categories) && s.nextCategoryId == old(s.nextCategoryId)
    ensures s.nextProductId == old(s.nextProductId)
    ensures s.CartsUnchanged() && s.UsersUnchanged() && s.orders == old(s.orders)
  {
    orderItems := [];
    var i := 0;
    while i < |cart.items|
      invariant 0 <= i <= |cart.items|
      invariant orderItems == OrderItemsOf(cart.items[..i])
      invariant s.products == DecrementAll(old(s.products), cart.items[..i])
      invariant s.Valid()
      invariant s.categories == old(s.categories) && s.nextCategoryId == old(s.nextCategoryId)
      invariant s.nextProductId == old(s.nextProductId)
      invariant s.CartsUnchanged() && s.UsersUnchanged() && s.orders == old(s.orders)
    {
      var line := cart.items[i];
      if line.productId in s.products {
        var product := s.products[line.productId];
        product := product.(inventory := product.inventory - line.quantity);
        s.SaveProduct(product);
      }
      orderItems := orderItems + [ToOrderItem(line)];
      assert cart.items[..i + 1][..i] == cart.items[..i];
      i := i + 1;
    }
    assert cart.items[..|cart.items|] == cart.items;
  }

  /** `getOrder`: the stored order, or "Order not found". */
  method GetOrder(s: Store, orderId: nat) returns (r: Result<Order>)
    ensures orderId in s.orders ==> r == Ok(s.orders[orderId])
    ensures orderId !in s.orders ==> r == Err(ResourceNotFound("Order not found"))
  {
    if orderId in s.orders {
      r := Ok(s.orders[orderId]);
    } else {
      r := Err(ResourceNotFound("Order not found"));
    }
  }
}
