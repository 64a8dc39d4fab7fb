/** The backend's entities, as values, and the exceptions its services throw.
    Money is integer cents (the source uses exact `BigDecimal`); quantities and
    inventories are unbounded integers. */
module Domain {
  import opened Wrappers

  /** The exceptions thrown by the services, each with its message text. */
  datatype Exception =
    | ResourceNotFound(message: string)
    | AlreadyExists(message: string)
    | ProductNotFound(message: string)

  /** The outcome of a service call that returns a value or throws. */
  datatype Result<+T> = Ok(value: T) | Err(error: Exception)

  /** The outcome of a `void` service call: it returns normally or throws. */
  datatype Outcome = Done | Failed(error: Exception)

  datatype Category = Category(id: nat, name: string)

  /** A product; `category` is absent when an update named a category that
      does not exist (`findByName` answered null). */
  datatype Product = Product(
    id: nat,
    name: string,
    brand: string,
    price: int,
    inventory: int,
    description: string,
    category: Option<Category>)

  /** A cart line. The line is bound to its product by id; the product's
      current data live in the product repository. */
  datatype CartItem = CartItem(productId: nat, quantity: int, unitPrice: int, totalPrice: int)

  /** A cart: its owner (if any), its lines in order, and the stored total. */
  datatype Cart = Cart(userId: Option<nat>, items: seq<CartItem>, totalAmount: int)

  /** A user; `password` holds the encoded password, never the raw one. */
  datatype User = User(id: nat, email: string, password: string, firstName: string, lastName: string)

  /** Order status. Only PENDING is used by the order service; the enum's
      other constants are represented by `Other`. */
  datatype OrderStatus = Pending | Other(name: string)

  datatype OrderItem = OrderItem(productId: nat, quantity: int, price: int)

  /** An order. Fields the service never sets stay absent (`userId`,
      `totalAmount`) or empty (`items`); `orderDate` is a day number. */
  datatype Order = Order(
    userId: Option<nat>,
    status: OrderStatus,
    orderDate: Option<nat>,
    items: seq<OrderItem>,
    totalAmount: Option<int>)

  /** The total of one cart line. `CartItem.setTotalPrice` is not part of this
      model; it is taken to be unit price times quantity, the same product the
      order service uses for order lines. */
  function LineTotal(unitPrice: int, quantity: int): int {
    unitPrice * quantity
  }

  /** A line whose stored total agrees with its unit price and quantity. */
  predicate Priced(line: CartItem) {
    line.totalPrice == LineTotal(line.unitPrice, line.quantity)
  }

  predicate AllPriced(items: seq<CartItem>) {
    forall i :: 0 <= i < |items| ==> Priced(items[i])
  }

  /** No product has two lines in the cart (`Cart.addItem` merges instead). */
  predicate UniqueLines(items: seq<CartItem>) {
    forall i, j :: 0 <= i < j < |items| ==> items[i].productId != items[j].productId
  }

  predicate HasProduct(items: seq<CartItem>, productId: nat) {
    exists i :: 0 <= i < |items| && items[i].productId == productId
  }

  /** What one line adds to the quantity held for `productId`. */
  function Contribution(line: CartItem, productId: nat): int {
    if line.productId == productId then line.quantity else 0
  }

  /** The total quantity of `productId` over all lines, summed left to right. */
  function QuantityOf(items: seq<CartItem>, productId: nat): int {
    if items == [] then 0
    else QuantityOf(items[..|items| - 1], productId) + Contribution(items[|items| - 1], productId)
  }

  /** `items.stream().map(CartItem::getTotalPrice).reduce(ZERO, add)`: zero
      for no lines, and never negative when no line total is. */
  function SumTotals(items: seq<CartItem>): (r: int)
    ensures items == [] ==> r == 0
    ensures (forall i :: 0 <= i < |items| ==> items[i].totalPrice >= 0) ==> r >= 0
  {
    if items == [] then 0
    else
      var init := items[..|items| - 1];
      assert forall i :: 0 <= i < |init| ==> init[i] == items[i];
      SumTotals(init) + items[|items| - 1].totalPrice
  }

  lemma {:induction false} QuantityOfAppend(a: seq<CartItem>, b: seq<CartItem>, productId: nat)
    ensures QuantityOf(a + b, productId) == QuantityOf(a, productId) + QuantityOf(b, productId)
  {
    if b == [] {
      assert a + b == a;
    } else {
      QuantityOfAppend(a, b[..|b| - 1], productId);
      assert (a + b)[..|a + b| - 1] == a + b[..|b| - 1];
    }
  }

  /** A product with no line has quantity zero. */
  lemma {:induction false} QuantityOfAbsent(items: seq<CartItem>, productId: nat)
    requires !HasProduct(items, productId)
    ensures QuantityOf(items, productId) == 0
  {
    if items != [] {
      var init := items[..|items| - 1];
      assert !HasProduct(init, productId) by {
        forall k | 0 <= k < |init| ensures init[k].productId != productId {
          assert init[k] == items[k];
        }
      }
      QuantityOfAbsent(init, productId);
    }
  }

  /** Replacing line `i` changes each product's quantity by the difference of
      the two lines' contributions. */
  lemma QuantityOfReplace(items: seq<CartItem>, i: nat, line: CartItem, productId: nat)
    requires i < |items|
    ensures QuantityOf(items[i := line], productId)
         == QuantityOf(items, productId) - Contribution(items[i], productId) + Contribution(line, productId)
  {
    var before, after := items[..i], items[i + 1..];
    assert items == before + [items[i]] + after;
    assert items[i := line] == before + [line] + after;
    QuantityOfAppend(before + [items[i]], after, productId);
    QuantityOfAppend(before, [items[i]], productId);
    QuantityOfAppend(before + [line], after, productId);
    QuantityOfAppend(before, [line], productId);
  }

  /** Dropping line `i` lowers each product's quantity by that line's contribution. */
  lemma QuantityOfRemove(items: seq<CartItem>, i: nat, productId: nat)
    requires i < |items|
    ensures QuantityOf(items[..i] + items[i + 1..], productId)
         == QuantityOf(items, productId) - Contribution(items[i], productId)
  {
    var before, after := items[..i], items[i + 1..];
    assert items == (before + [items[i]]) + after;
    assert (before + [items[i]])[..|before|] == before;
    QuantityOfAppend(before + [items[i]], after, productId);
    QuantityOfAppend(before, after, productId);
  }

  /** In a cart with one line per product, the quantity of a product is the
      quantity on its line. */
  lemma QuantityOfUnique(items: seq<CartItem>, i: nat)
    requires UniqueLines(items) && i < |items|
    ensures QuantityOf(items, items[i].productId) == items[i].quantity
  {
    var productId := items[i].productId;
    var before, after := items[..i], items[i + 1..];
    assert items == before + [items[i]] + after;
    assert !HasProduct(before, productId) by {
      forall k | 0 <= k < |before| ensures before[k].productId != productId {
        assert before[k] == items[k];
      }
    }
    assert !HasProduct(after, productId) by {
      forall k | 0 <= k < |after| ensures after[k].productId != productId {
        assert after[k] == items[i + 1 + k];
      }
    }
    QuantityOfAbsent(before, productId);
    QuantityOfAbsent(after, productId);
    QuantityOfAppend(before + [items[i]], after, productId);
    QuantityOfAppend(before, [items[i]], productId);
  }
}
