/** The client cart store (`CartProvider`): it reconciles a locally cached
    cart id with the backend's cart and rebuilds the displayed cart after
    every mutation.

    Each asynchronous operation runs as one sequential step. The backend is a
    function from the request sent to the reply received, so a step's outcome
    is determined by the state, the local storage and that function. Every
    step also reports the requests it sent, in order. */
module CartContext {
  import opened Wrappers
  import Browser

  datatype ReplyImage = ReplyImage(downloadUrl: string)

  datatype ReplyProduct = ReplyProduct(id: string, name: string, price: int, images: Option<seq<ReplyImage>>)

  datatype ReplyItem = ReplyItem(product: ReplyProduct, quantity: int)

  /** The `data` object of a cart reply. `fetchCart` reads `cartId` and
      `totalAmount` from the user-cart reply and `totalPrice` from the by-id
      reply; `addItem` reads the new cart's id from `id`. Each field is
      absent when the backend does not send it. */
  datatype CartData = CartData(
    cartId: Option<string>,
    id: Option<string>,
    items: Option<seq<ReplyItem>>,
    totalAmount: Option<int>,
    totalPrice: Option<int>)

  /** A backend reply: a response body `{ success, data, message }`, or a
      rejected request whose `err.response?.data?.message` is `message`. */
  datatype Reply =
    | Answered(success: bool, data: Option<CartData>, message: Option<string>)
    | Thrown(message: Option<string>)

  /** The requests the cart store sends, one per endpoint it calls. */
  datatype Request =
    | GetUserCart(userId: string)                                    // GET /carts/user/{userId}
    | GetMyCart(cartId: string)                                      // GET /carts/{cartId}/my-cart
    | PostAddItem(productId: string, quantity: int, targetCartId: Option<string>)  // POST /cartItems/item/add
    | DeleteItem(cartId: string, productId: string)                  // DELETE .../item/{productId}/remove
    | PutItemQuantity(cartId: string, productId: string, quantity: int)      // PUT .../item/{productId}/update
    | DeleteCart(cartId: string)                                     // DELETE /carts/{cartId}/clear

  /** A displayed cart line. */
  datatype CartItem = CartItem(productId: string, name: string, price: int, quantity: int, productImage: string)

  /** The store's state fields. */
  datatype State = State(
    cart: seq<CartItem>,
    totalPrice: int,
    loading: bool,
    error: Option<string>,
    cartId: Option<string>,
    successMessage: Option<string>)

  /** What a step leaves behind: the state, the local storage, and the
      requests sent, in order. */
  datatype Step = Step(state: State, storage: map<string, string>, calls: seq<Request>)

  /** The state before the mount effect runs. */
  const InitialState := State([], 0, true, None, None, None)

  /** JavaScript truthiness of a string that may be null or undefined. */
  predicate Truthy(s: Option<string>) {
    s.Some? && s.value != ""
  }

  /** `message || fallback`. */
  function OrElse(message: Option<string>, fallback: string): (r: string)
    ensures Truthy(message) ==> r == message.value
    ensures !Truthy(message) ==> r == fallback
  {
    if Truthy(message) then message.value else fallback
  }

  /** The string `localStorage.setItem` stores for a value that may be undefined. */
  function StoredString(value: Option<string>): string {
    if value.Some? then value.value else "undefined"
  }

  function Lookup(storage: map<string, string>, key: string): Option<string> {
    if key in storage then Some(storage[key]) else None
  }

  /** The mapping of one reply line to a displayed line; the image is the
      backend URL followed by the first image's download URL, or empty. */
  function ToCartItem(item: ReplyItem, backendUrl: string): CartItem {
    var images := item.product.images;
    CartItem(item.product.id, item.product.name, item.product.price, item.quantity,
             if images.Some? && |images.value| > 0 then backendUrl + images.value[0].downloadUrl else "")
  }

  /** `items?.map(...) || []`: one displayed line per reply line, in order;
      absent items give an empty cart. */
  function MapItems(items: Option<seq<ReplyItem>>, backendUrl: string): (r: seq<CartItem>)
    ensures items.None? ==> r == []
    ensures items.Some? ==> |r| == |items.value|
    ensures items.Some? ==> forall i :: 0 <= i < |r| ==>
      && r[i].productId == items.value[i].product.id
      && r[i].name == items.value[i].product.name
      && r[i].price == items.value[i].product.price
      && r[i].quantity == items.value[i].quantity
    ensures items.Some? ==> forall i :: 0 <= i < |r| ==>
      var images := items.value[i].product.images;
      r[i].productImage == if images.Some? && |images.value| > 0 then backendUrl + images.value[0].downloadUrl else ""
  {
    if items.None? then []
    else seq(|items.value|, i requires 0 <= i < |items.value| => ToCartItem(items.value[i], backendUrl))
  }

  /** A reply that carries a successful body with data. */
  predicate Delivered(reply: Reply) {
    reply.Answered? && reply.success && reply.data.Some?
  }

  /** The state `fetchCart` starts from, after its three resets. */
  function Started(st: State): State {
    st.(loading := true, error := None, successMessage := None)
  }

  /** The "no cart for this user" sentinel reply. */
  predicate IsResourceNotFound(reply: Reply) {
    reply.Answered? && !reply.success && reply.message == Some("Resource not found")
  }

  /** The by-id leg of `fetchCart`: fetch the active cart id if there is one,
      otherwise show an empty cart. `loading` is left to the caller. */
  function FetchByIdStep(st: State, storage: map<string, string>, activeCartId: Option<string>,
                         backend: Request -> Reply, backendUrl: string): (r: Step)
    ensures r.storage == storage && r.state.cartId == st.cartId
    ensures r.state.loading == st.loading && r.state.successMessage == st.successMessage
    ensures !Truthy(activeCartId) ==> r.calls == [] && r.state.cart == [] && r.state.totalPrice == 0 && r.state.error == st.error
    ensures Truthy(activeCartId) ==> r.calls == [GetMyCart(activeCartId.value)]
  {
    if !Truthy(activeCartId) then Step(st.(cart := [], totalPrice := 0), storage, [])
    else
      var request := GetMyCart(activeCartId.value);
      var reply := backend(request);
      var next :=
        if Delivered(reply) then
          st.(cart := MapItems(reply.data.value.items, backendUrl), totalPrice := reply.data.value.totalPrice.GetOr(0))
        else if reply.Answered? && !reply.success then
          st.(error := Some(OrElse(reply.message, "Failed to fetch cart.")), cart := [], totalPrice := 0)
        else
          // A rejected request, or a success body without data whose `items`
          // cannot be read: both end in the catch block.
          var message := if reply.Thrown? then reply.message else None;
          st.(error := Some(OrElse(message, "An error occurred while fetching cart.")), cart := [], totalPrice := 0);
      Step(next, storage, [request])
  }

  /** What the user-cart lookup leaves for the rest of `fetchCart`: the step
      so far, the cart id to fetch next, and whether `fetchCart` goes on to
      the by-id leg. */
  datatype LookupOutcome = LookupOutcome(step: Step, activeCartId: Option<string>, proceed: bool)

  /** The user-cart lookup of `fetchCart`. A found cart's id is adopted and
      persisted and its items shown; the "Resource not found" sentinel sets
      the empty-cart message; any other failure empties the cart, ends
      loading and stops. */
  function LookupStep(st: State, storage: map<string, string>, currentCartId: Option<string>, userId: string,
                      backend: Request -> Reply, backendUrl: string): (r: LookupOutcome)
    ensures r.step.calls == [GetUserCart(userId)] && r.step.state.successMessage == st.successMessage
    ensures var reply := backend(GetUserCart(userId));
      r.proceed <==> Delivered(reply) || IsResourceNotFound(reply)
    ensures r.proceed ==> r.step.state.loading == st.loading
    ensures !r.proceed ==>
      && r.step.storage == storage && r.step.state.cartId == st.cartId && r.activeCartId == currentCartId
      && !r.step.state.loading && r.step.state.cart == [] && r.step.state.totalPrice == 0 && r.step.state.error.Some?
  {
    var lookup := GetUserCart(userId);
    var reply := backend(lookup);
    if Delivered(reply) then
      var adopted := reply.data.value.cartId;
      var st1 := st.(cartId := adopted, cart := MapItems(reply.data.value.items, backendUrl),
                     totalPrice := reply.data.value.totalAmount.GetOr(0));
      LookupOutcome(Step(st1, storage["cartId" := adopted.GetOr("")], [lookup]), adopted, true)
    else if IsResourceNotFound(reply) then
      LookupOutcome(Step(st.(error := Some("Your cart is empty.")), storage, [lookup]), currentCartId, true)
    else
      var fallback := if reply.Answered? then "Failed to initialize cart for user." else "An error occurred while fetching cart.";
      var st1 := st.(error := Some(OrElse(reply.message, fallback)), cart := [], totalPrice := 0, loading := false);
      LookupOutcome(Step(st1, storage, [lookup]), currentCartId, false)
  }

  /** `fetchCart(currentCartId)`: reconcile the local cart id with the
      backend. Without a cart id but with a stored user id, the user's cart
      is looked up first; a found cart's id is adopted and persisted, the
      "Resource not found" sentinel means an empty cart, and any other
      failure ends the step. Then the active cart id, if any, is fetched. */
  function FetchCartStep(st: State, storage: map<string, string>, currentCartId: Option<string>,
                         backend: Request -> Reply, backendUrl: string): (r: Step)
    // `loading` is false on every path.
    ensures !r.state.loading && r.state.successMessage.None?
  {
    var st0 := Started(st);
    var userId := Lookup(storage, "userId");
    var r :=
      if !Truthy(currentCartId) && Truthy(userId) then
        var l := LookupStep(st0, storage, currentCartId, userId.value, backend, backendUrl);
        if l.proceed then
          var b := FetchByIdStep(l.step.state, l.step.storage, l.activeCartId, backend, backendUrl);
          Step(b.state, b.storage, l.step.calls + b.calls)
        else l.step
      else
        FetchByIdStep(st0, storage, currentCartId, backend, backendUrl);
    r.(state := r.state.(loading := false))
  }

  /** No cart id and no stored user id: no request, an empty cart, no error. */
  lemma FetchCartWithoutIdentity(st: State, storage: map<string, string>, currentCartId: Option<string>,
                                 backend: Request -> Reply, backendUrl: string)
    requires !Truthy(currentCartId) && !Truthy(Lookup(storage, "userId"))
    ensures var r := FetchCartStep(st, storage, currentCartId, backend, backendUrl);
      && r.calls == [] && r.storage == storage
      && r.state == st.(cart := [], totalPrice := 0, loading := false, error := None, successMessage := None)
  {
  }

  /** With a cart id the user lookup is skipped: exactly one fetch by id,
      and the cart id and the storage stay, whatever the reply. A failed
      fetch empties the cart and total and sets an error; a delivered one
      shows its items and total. */
  lemma FetchCartById(st: State, storage: map<string, string>, currentCartId: Option<string>,
                      backend: Request -> Reply, backendUrl: string)
    requires Truthy(currentCartId)
    ensures var r := FetchCartStep(st, storage, currentCartId, backend, backendUrl);
      var reply := backend(GetMyCart(currentCartId.value));
      && r.calls == [GetMyCart(currentCartId.value)] && r.storage == storage && r.state.cartId == st.cartId
      && (!Delivered(reply) ==> r.state.error.Some? && r.state.cart == [] && r.state.totalPrice == 0)
      && (Delivered(reply) ==>
            && r.state.error.None? && r.state.cart == MapItems(reply.data.value.items, backendUrl)
            && r.state.totalPrice == reply.data.value.totalPrice.GetOr(0))
  {
  }

  /** The "Resource not found" lookup: the "Your cart is empty." message,
      an empty cart, and no further request. */
  lemma FetchCartNoUserCart(st: State, storage: map<string, string>, currentCartId: Option<string>,
                            backend: Request -> Reply, backendUrl: string)
    requires !Truthy(currentCartId) && Truthy(Lookup(storage, "userId"))
    requires IsResourceNotFound(backend(GetUserCart(storage["userId"])))
    ensures var r := FetchCartStep(st, storage, currentCartId, backend, backendUrl);
      && r.calls == [GetUserCart(storage["userId"])] && r.storage == storage && r.state.cartId == st.cartId
      && r.state.error == Some("Your cart is empty.") && r.state.cart == [] && r.state.totalPrice == 0
  {
  }

  /** Any other failed lookup: the reply's message or the fallback, an
      empty cart, and no fetch by id. */
  lemma FetchCartLookupFailed(st: State, storage: map<string, string>, currentCartId: Option<string>,
                              backend: Request -> Reply, backendUrl: string)
    requires !Truthy(currentCartId) && Truthy(Lookup(storage, "userId"))
    requires !Delivered(backend(GetUserCart(storage["userId"])))
    requires !IsResourceNotFound(backend(GetUserCart(storage["userId"])))
    ensures var r := FetchCartStep(st, storage, currentCartId, backend, backendUrl);
      var reply := backend(GetUserCart(storage["userId"]));
      && r.calls == [GetUserCart(storage["userId"])] && r.storage == storage && r.state.cartId == st.cartId
      && r.state.cart == [] && r.state.totalPrice == 0
      && (reply.Answered? ==> r.state.error == Some(OrElse(reply.message, "Failed to initialize cart for user.")))
      && (reply.Thrown? ==> r.state.error == Some(OrElse(reply.message, "An error occurred while fetching cart.")))
  {
  }

  /** A found user cart: its `cartId` is adopted and persisted (or the empty
      string when absent), then fetched by that id when it is truthy. */
  lemma FetchCartAdopts(st: State, storage: map<string, string>, currentCartId: Option<string>,
                        backend: Request -> Reply, backendUrl: string)
    requires !Truthy(currentCartId) && Truthy(Lookup(storage, "userId"))
    requires Delivered(backend(GetUserCart(storage["userId"])))
    ensures var r := FetchCartStep(st, storage, currentCartId, backend, backendUrl);
      var adopted := backend(GetUserCart(storage["userId"])).data.value.cartId;
      && r.state.cartId == adopted
      && r.storage == storage["cartId" := adopted.GetOr("")]
      && (Truthy(adopted) ==> r.calls == [GetUserCart(storage["userId"]), GetMyCart(adopted.value)])
      && (!Truthy(adopted) ==> r.calls == [GetUserCart(storage["userId"])] && r.state.cart == [] && r.state.totalPrice == 0)
  {
  }

  /** The mount effect: adopt a truthy stored cart id, then `fetchCart` with
      the stored value. */
  function MountStep(st: State, storage: map<string, string>, backend: Request -> Reply, backendUrl: string): (r: Step)
    ensures !r.state.loading
    ensures Truthy(Lookup(storage, "cartId")) ==>
      r.calls == [GetMyCart(storage["cartId"])] && r.state.cartId == Some(storage["cartId"]) && r.storage == storage
  {
    var stored := Lookup(storage, "cartId");
    var st1 := if Truthy(stored) then st.(cartId := stored) else st;
    if Truthy(stored) then FetchCartById(st1, storage, stored, backend, backendUrl); FetchCartStep(st1, storage, stored, backend, backendUrl)
    else FetchCartStep(st1, storage, stored, backend, backendUrl)
  }

  /** `addItem(productId, quantity)`: refused without a stored user id.
      Without a cart id the item is added without one, the user's cart is
      looked up, its `id` field adopted and persisted, and the cart fetched
      with it; with a cart id the item is added to that cart and the cart
      re-fetched. A success message follows every re-fetch. */
  function AddItemStep(st: State, storage: map<string, string>, productId: string, quantity: int,
                       backend: Request -> Reply, backendUrl: string): (r: Step)
    ensures !r.state.loading
  {
    var st0 := st.(loading := true, error := None, successMessage := None);
    var userId := Lookup(storage, "userId");
    var r :=
      if !Truthy(userId) then
        Step(st0.(error := Some("User not authenticated. Please log in to add items to cart.")), storage, [])
      else if !Truthy(st.cartId) then
        AddWithoutCartStep(st0, storage, userId.value, productId, quantity, backend, backendUrl)
      else
        var add := PostAddItem(productId, quantity, st.cartId);
        var reply := backend(add);
        if reply.Thrown? then
          Step(st0.(error := Some(OrElse(reply.message, "An error occurred while adding item to cart."))), storage, [add])
        else if !reply.success then
          Step(st0.(error := Some(OrElse(reply.message, "Failed to add item to cart."))), storage, [add])
        else
          var f := FetchCartStep(st0, storage, st.cartId, backend, backendUrl);
          Step(f.state.(successMessage := Some("Item added to cart successfully!")), f.storage, [add] + f.calls);
    r.(state := r.state.(loading := false))
  }

  /** Without a stored user id `addItem` sends nothing and only reports
      the missing login. */
  lemma AddItemUnauthenticated(st: State, storage: map<string, string>, productId: string, quantity: int,
                               backend: Request -> Reply, backendUrl: string)
    requires !Truthy(Lookup(storage, "userId"))
    ensures var r := AddItemStep(st, storage, productId, quantity, backend, backendUrl);
      && r.calls == [] && r.storage == storage
      && r.state == st.(loading := false, successMessage := None,
                        error := Some("User not authenticated. Please log in to add items to cart."))
  {
  }

  /** With a user id the add request goes first, carrying the cart id when
      there is one. A refused or failed add changes neither the cart nor the
      cart id; a successful add to a known cart is followed by a re-fetch of
      that cart and the success message. */
  lemma AddItemProtocol(st: State, storage: map<string, string>, productId: string, quantity: int,
                        backend: Request -> Reply, backendUrl: string)
    requires Truthy(Lookup(storage, "userId"))
    ensures var r := AddItemStep(st, storage, productId, quantity, backend, backendUrl);
      var add := PostAddItem(productId, quantity, if Truthy(st.cartId) then st.cartId else None);
      && |r.calls| >= 1 && r.calls[0] == add
      && (!(backend(add).Answered? && backend(add).success) ==>
            && r.calls == [add] && r.storage == storage && r.state.successMessage.None?
            && r.state.error.Some? && r.state.cart == st.cart && r.state.cartId == st.cartId)
      && (Truthy(st.cartId) && backend(add).Answered? && backend(add).success ==>
            var f := FetchCartStep(st, storage, st.cartId, backend, backendUrl);
            && r.calls == [add] + f.calls && r.storage == f.storage
            && r.state == f.state.(successMessage := Some("Item added to cart successfully!")))
  {
    var st0 := st.(loading := true, error := None, successMessage := None);
    if Truthy(st.cartId) {
      assert FetchCartStep(st0, storage, st.cartId, backend, backendUrl)
          == FetchCartStep(st, storage, st.cartId, backend, backendUrl);
    } else {
      var w := AddWithoutCartStep(st0, storage, storage["userId"], productId, quantity, backend, backendUrl);
      assert AddItemStep(st, storage, productId, quantity, backend, backendUrl) == w.(state := w.state.(loading := false));
    }
  }

  /** The branch of `addItem` without a cart id: add the item without one,
      look up the user's cart, adopt and persist its `id` field, fetch the
      cart with it. `loading` is left to the caller. */
  function AddWithoutCartStep(st: State, storage: map<string, string>, userId: string, productId: string,
                              quantity: int, backend: Request -> Reply, backendUrl: string): (r: Step)
    ensures |r.calls| >= 1 && r.calls[0] == PostAddItem(productId, quantity, None)
    ensures var add := PostAddItem(productId, quantity, None);
      !(backend(add).Answered? && backend(add).success) ==>
        && r.calls == [add] && r.storage == storage
        && r.state.error.Some? && r.state == st.(error := r.state.error)
  {
    var add := PostAddItem(productId, quantity, None);
    var reply := backend(add);
    if reply.Thrown? then
      Step(st.(error := Some(OrElse(reply.message, "An error occurred while adding item to cart."))), storage, [add])
    else if !reply.success then
      Step(st.(error := Some(OrElse(reply.message, "Failed to add item to cart."))), storage, [add])
    else
      var lookup := GetUserCart(userId);
      var found := backend(lookup);
      if found.Thrown? then
        Step(st.(error := Some(OrElse(found.message, "An error occurred while adding item to cart."))),
             storage, [add, lookup])
      else if Delivered(found) then
        var newCartId := found.data.value.id;
        var f := FetchCartStep(st.(cartId := newCartId), storage["cartId" := StoredString(newCartId)],
                               newCartId, backend, backendUrl);
        Step(f.state.(successMessage := Some("Item added to cart successfully!")), f.storage, [add, lookup] + f.calls)
      else
        Step(st.(error := Some(OrElse(found.message, "Failed to retrieve user cart after adding item."))),
             storage, [add, lookup])
  }

  /** A successful add without a cart id is followed by the user-cart
      lookup. A delivered reply's `id` field is persisted (the string
      "undefined" when it is absent) and adopted, the cart is fetched with
      it, and the success message is set; any other reply only sets an
      error after the two requests. */
  lemma AddWithoutCartAfterAdd(st: State, storage: map<string, string>, userId: string, productId: string,
                               quantity: int, backend: Request -> Reply, backendUrl: string)
    requires var add := PostAddItem(productId, quantity, None); backend(add).Answered? && backend(add).success
    ensures var r := AddWithoutCartStep(st, storage, userId, productId, quantity, backend, backendUrl);
      var add, lookup := PostAddItem(productId, quantity, None), GetUserCart(userId);
      var found := backend(lookup);
      && (Delivered(found) ==>
            var id := found.data.value.id;
            var f := FetchCartStep(st.(cartId := id), storage["cartId" := StoredString(id)], id, backend, backendUrl);
            && r.calls == [add, lookup] + f.calls && r.storage == f.storage
            && r.state == f.state.(successMessage := Some("Item added to cart successfully!")))
      && (!Delivered(found) ==>
            && r.calls == [add, lookup] && r.storage == storage && r.state.cartId == st.cartId
            && r.state == st.(error := Some(OrElse(found.message,
                 if found.Thrown? then "An error occurred while adding item to cart."
                 else "Failed to retrieve user cart after adding item."))))
  {
  }

  /** `addItem` with a user id but no cart id, after a successful add and a
      delivered user-cart lookup: the `id` field is adopted and persisted,
      `fetchCart` runs with it, and the success message follows. */
  lemma AddItemToNewCart(st: State, storage: map<string, string>, productId: string, quantity: int,
                         backend: Request -> Reply, backendUrl: string)
    requires Truthy(Lookup(storage, "userId")) && !Truthy(st.cartId)
    requires var add := PostAddItem(productId, quantity, None); backend(add).Answered? && backend(add).success
    requires Delivered(backend(GetUserCart(storage["userId"])))
    ensures var r := AddItemStep(st, storage, productId, quantity, backend, backendUrl);
      var add, lookup := PostAddItem(productId, quantity, None), GetUserCart(storage["userId"]);
      var id := backend(lookup).data.value.id;
      var f := FetchCartStep(st.(cartId := id), storage["cartId" := StoredString(id)], id, backend, backendUrl);
      && r.calls == [add, lookup] + f.calls && r.storage == f.storage
      && r.state == f.state.(successMessage := Some("Item added to cart successfully!"))
  {
    var st0 := st.(loading := true, error := None, successMessage := None);
    var id := backend(GetUserCart(storage["userId"])).data.value.id;
    var storage1 := storage["cartId" := StoredString(id)];
    AddWithoutCartAfterAdd(st0, storage, storage["userId"], productId, quantity, backend, backendUrl);
    assert Started(st0.(cartId := id)) == Started(st.(cartId := id));
    assert FetchCartStep(st0.(cartId := id), storage1, id, backend, backendUrl)
        == FetchCartStep(st.(cartId := id), storage1, id, backend, backendUrl);
  }

  /** The usual user-cart reply carries `cartId` but no `id`. Then `addItem`
      without a cart id persists "undefined", adopts no id, and the
      `fetchCart` that follows looks the user's cart up again, adopts its
      `cartId` and fetches it: four requests, the stored and adopted cart id
      is `cartId`, and the success message is set. */
  lemma AddItemToNewCartWithoutId(st: State, storage: map<string, string>, productId: string, quantity: int,
                                  backend: Request -> Reply, backendUrl: string)
    requires Truthy(Lookup(storage, "userId")) && !Truthy(st.cartId)
    requires var add := PostAddItem(productId, quantity, None); backend(add).Answered? && backend(add).success
    requires var found := backend(GetUserCart(storage["userId"]));
      Delivered(found) && found.data.value.id.None? && Truthy(found.data.value.cartId)
    ensures var r := AddItemStep(st, storage, productId, quantity, backend, backendUrl);
      var add, lookup := PostAddItem(productId, quantity, None), GetUserCart(storage["userId"]);
      var c := backend(lookup).data.value.cartId.value;
      && r.calls == [add, lookup, lookup, GetMyCart(c)]
      && r.storage == storage["cartId" := c] && r.state.cartId == Some(c)
      && r.state.successMessage == Some("Item added to cart successfully!") && !r.state.loading
  {
    AddItemToNewCart(st, storage, productId, quantity, backend, backendUrl);
    var lookup := GetUserCart(storage["userId"]);
    var storage1 := storage["cartId" := "undefined"];
    assert Lookup(storage1, "userId") == Lookup(storage, "userId");
    FetchCartAdopts(st.(cartId := None), storage1, None, backend, backendUrl);
    assert storage1["cartId" := backend(lookup).data.value.cartId.value] == storage["cartId" := backend(lookup).data.value.cartId.value];
  }

  /** The shared body of `removeItem` and `updateItemQuantity` once the cart
      id guard passed: send the request; on success re-fetch the cart and set
      the success message, otherwise set the reply's message or a fallback. */
  function MutationStep(st: State, storage: map<string, string>, request: Request,
                        succeeded: string, failed: string, errored: string,
                        backend: Request -> Reply, backendUrl: string): (r: Step)
    requires Truthy(st.cartId)
    ensures !r.state.loading && |r.calls| >= 1 && r.calls[0] == request
    ensures backend(request).Answered? && backend(request).success ==> r.state.successMessage == Some(succeeded)
    ensures !(backend(request).Answered? && backend(request).success) ==>
      && r.calls == [request] && r.storage == storage && r.state.error.Some? && r.state.successMessage.None?
      && r.state.cart == st.cart && r.state.cartId == st.cartId
  {
    var st0 := st.(loading := true, error := None, successMessage := None);
    var reply := backend(request);
    var r :=
      if reply.Thrown? then Step(st0.(error := Some(OrElse(reply.message, errored))), storage, [request])
      else if !reply.success then Step(st0.(error := Some(OrElse(reply.message, failed))), storage, [request])
      else
        var f := FetchCartStep(st0, storage, st.cartId, backend, backendUrl);
        Step(f.state.(successMessage := Some(succeeded)), f.storage, [request] + f.calls);
    r.(state := r.state.(loading := false))
  }

  /** `removeItem(productId)`: refused without a cart id, with no request
      and nothing but the error changed; otherwise removes the line on the
      backend and re-fetches the cart. */
  function RemoveItemStep(st: State, storage: map<string, string>, productId: string,
                          backend: Request -> Reply, backendUrl: string): (r: Step)
    ensures !Truthy(st.cartId) ==>
      r == Step(st.(error := Some("No cart found to remove items from.")), storage, [])
    ensures Truthy(st.cartId) ==>
      var request := DeleteItem(st.cartId.value, productId);
      && !r.state.loading && |r.calls| >= 1 && r.calls[0] == request
      && (backend(request).Answered? && backend(request).success ==>
            var f := FetchCartStep(st, storage, st.cartId, backend, backendUrl);
            && r.calls == [request] + f.calls && r.storage == f.storage
            && r.state == f.state.(successMessage := Some("Item removed from cart successfully!")))
      && (!(backend(request).Answered? && backend(request).success) ==>
            && r.calls == [request] && r.storage == storage && r.state.error.Some?
            && r.state.cart == st.cart && r.state.cartId == st.cartId)
  {
    if !Truthy(st.cartId) then Step(st.(error := Some("No cart found to remove items from.")), storage, [])
    else
      MutationStep(st, storage, DeleteItem(st.cartId.value, productId),
                   "Item removed from cart successfully!", "Failed to remove item from cart.",
                   "An error occurred while removing item from cart.", backend, backendUrl)
  }

  /** `updateItemQuantity(productId, quantity)`: refused without a cart id;
      otherwise updates the line on the backend and re-fetches the cart. */
  function UpdateItemQuantityStep(st: State, storage: map<string, string>, productId: string, quantity: int,
                                  backend: Request -> Reply, backendUrl: string): (r: Step)
    ensures !Truthy(st.cartId) ==>
      r == Step(st.(error := Some("No cart found to update items in.")), storage, [])
    ensures Truthy(st.cartId) ==>
      var request := PutItemQuantity(st.cartId.value, productId, quantity);
      && !r.state.loading && |r.calls| >= 1 && r.calls[0] == request
      && (backend(request).Answered? && backend(request).success ==>
            var f := FetchCartStep(st, storage, st.cartId, backend, backendUrl);
            && r.calls == [request] + f.calls && r.storage == f.storage
            && r.state == f.state.(successMessage := Some("Item quantity updated successfully!")))
      && (!(backend(request).Answered? && backend(request).success) ==>
            && r.calls == [request] && r.storage == storage && r.state.error.Some?
            && r.state.cart == st.cart && r.state.cartId == st.cartId)
  {
    if !Truthy(st.cartId) then Step(st.(error := Some("No cart found to update items in.")), storage, [])
    else
      MutationStep(st, storage, PutItemQuantity(st.cartId.value, productId, quantity),
                   "Item quantity updated successfully!", "Failed to update item quantity.",
                   "An error occurred while updating item quantity.", backend, backendUrl)
  }

  /** `clearCart()`: refused without a cart id. A successful clear empties
      the cart and total, forgets the cart id and removes the persisted one;
      a failed one keeps the cart id and the cart. */
  function ClearCartStep(st: State, storage: map<string, string>, backend: Request -> Reply): (r: Step)
    ensures !Truthy(st.cartId) ==>
      r == Step(st.(error := Some("No cart found to clear.")), storage, [])
    ensures Truthy(st.cartId) ==>
      var request := DeleteCart(st.cartId.value);
      && !r.state.loading && r.calls == [request]
      && (backend(request).Answered? && backend(request).success ==>
            && r.state.cart == [] && r.state.totalPrice == 0 && r.state.cartId.None?
            && r.storage == storage - {"cartId"} && "cartId" !in r.storage
            && r.state.error.None? && r.state.successMessage == Some("Cart cleared successfully!"))
      && (!(backend(request).Answered? && backend(request).success) ==>
            && r.storage == storage && r.state.cartId == st.cartId && r.state.cart == st.cart
            && r.state.error.Some? && r.state.successMessage.None?)
  {
    if !Truthy(st.cartId) then Step(st.(error := Some("No cart found to clear.")), storage, [])
    else
      var st0 := st.(loading := true, error := None, successMessage := None);
      var request := DeleteCart(st.cartId.value);
      var reply := backend(request);
      var r :=
        if reply.Thrown? then
          Step(st0.(error := Some(OrElse(reply.message, "An error occurred while clearing cart."))), storage, [request])
        else if !reply.success then
          Step(st0.(error := Some(OrElse(reply.message, "Failed to clear cart."))), storage, [request])
        else
          Step(st0.(cart := [], totalPrice := 0, cartId := None, successMessage := Some("Cart cleared successfully!")),
               storage - {"cartId"}, [request]);
      r.(state := r.state.(loading := false))
  }

  /** The by-id leg overwrites the displayed cart and total on every path,
      so their earlier values do not matter. */
  lemma FetchByIdOverwrites(st: State, storage: map<string, string>, activeCartId: Option<string>,
                            backend: Request -> Reply, backendUrl: string, cart: seq<CartItem>, totalPrice: int)
    ensures FetchByIdStep(st.(cart := cart, totalPrice := totalPrice), storage, activeCartId, backend, backendUrl)
         == FetchByIdStep(st, storage, activeCartId, backend, backendUrl)
  {
  }

  /** Idempotence when the step fetches the cart id it starts with. */
  lemma FetchCartIdempotentById(st: State, storage: map<string, string>, backend: Request -> Reply, backendUrl: string)
    requires Truthy(st.cartId)
    ensures var once := FetchCartStep(st, storage, st.cartId, backend, backendUrl);
      var twice := FetchCartStep(once.state, once.storage, once.state.cartId, backend, backendUrl);
      twice.state == once.state && twice.storage == once.storage
  {
    var b := FetchByIdStep(Started(st), storage, st.cartId, backend, backendUrl);
    var once := FetchCartStep(st, storage, st.cartId, backend, backendUrl);
    assert once == b.(state := b.state.(loading := false));
    assert b.state.cartId == st.cartId && b.state.successMessage.None?;
    assert Started(once.state) == Started(st).(cart := b.state.cart, totalPrice := b.state.totalPrice);
    FetchByIdOverwrites(Started(st), storage, st.cartId, backend, backendUrl, b.state.cart, b.state.totalPrice);
  }

  /** Idempotence when the step adopts the cart id of a found user cart. */
  lemma FetchCartIdempotentAdopted(st: State, storage: map<string, string>, backend: Request -> Reply, backendUrl: string)
    requires !Truthy(st.cartId) && Truthy(Lookup(storage, "userId"))
    requires Delivered(backend(GetUserCart(storage["userId"])))
    ensures var once := FetchCartStep(st, storage, st.cartId, backend, backendUrl);
      var twice := FetchCartStep(once.state, once.storage, once.state.cartId, backend, backendUrl);
      twice.state == once.state && twice.storage == once.storage
  {
    var l := LookupStep(Started(st), storage, st.cartId, storage["userId"], backend, backendUrl);
    var adopted, st1, storage1 := l.activeCartId, l.step.state, l.step.storage;
    var b := FetchByIdStep(st1, storage1, adopted, backend, backendUrl);
    var once := FetchCartStep(st, storage, st.cartId, backend, backendUrl);
    assert once == Step(b.state.(loading := false), b.storage, l.step.calls + b.calls);
    assert storage1 == storage["cartId" := adopted.GetOr("")] && b.storage == storage1;
    assert b.state.cartId == adopted && st1.error.None? && st1.successMessage.None?;
    if Truthy(adopted) {
      assert Started(once.state) == st1.(cart := b.state.cart, totalPrice := b.state.totalPrice);
      FetchByIdOverwrites(st1, storage1, adopted, backend, backendUrl, b.state.cart, b.state.totalPrice);
    } else {
      assert Lookup(storage1, "userId") == Lookup(storage, "userId");
      assert storage1["cartId" := adopted.GetOr("")] == storage1;
      assert once.state == st1.(cart := [], totalPrice := 0, loading := false);
    }
  }

  /** Reconciling twice in a row against an unchanged backend, each time
      from the store's own cart id, leaves the same state and storage as
      reconciling once. */
  lemma FetchCartIdempotent(st: State, storage: map<string, string>, backend: Request -> Reply, backendUrl: string)
    ensures var once := FetchCartStep(st, storage, st.cartId, backend, backendUrl);
      var twice := FetchCartStep(once.state, once.storage, once.state.cartId, backend, backendUrl);
      twice.state == once.state && twice.storage == once.storage
  {
    if Truthy(st.cartId) {
      FetchCartIdempotentById(st, storage, backend, backendUrl);
    } else if Truthy(Lookup(storage, "userId")) && Delivered(backend(GetUserCart(storage["userId"]))) {
      FetchCartIdempotentAdopted(st, storage, backend, backendUrl);
    }
  }

  /** The cart store: the state fields of the context and the local storage
      it shares with the session store. */
  class CartProvider {
    var cart: seq<CartItem>
    var totalPrice: int
    var loading: bool
    var error: Option<string>
    var cartId: Option<string>
    var successMessage: Option<string>
    const storage: Browser.LocalStorage
    /** `NEXT_PUBLIC_BACKEND_URL`, the prefix of every image URL. */
    const backendUrl: string

    function Snapshot(): State
      reads this
    {
      State(cart, totalPrice, loading, error, cartId, successMessage)
    }

    /** The `useState` initial values. */
    constructor (storage: Browser.LocalStorage, backendUrl: string)
      ensures Snapshot() == InitialState
      ensures this.storage == storage && this.backendUrl == backendUrl
    {
      cart, totalPrice, loading, error, cartId, successMessage := [], 0, true, None, None, None;
      this.storage := storage;
      this.backendUrl := backendUrl;
    }

    /** The by-id leg of `fetchCart`. */
    method FetchById(activeCartId: Option<string>, backend: Request -> Reply) returns (calls: seq<Request>)
      modifies this
      ensures Step(Snapshot(), storage.entries, calls)
           == FetchByIdStep(old(Snapshot()), storage.entries, activeCartId, backend, backendUrl)
    {
      calls := [];
      if Truthy(activeCartId) {
        var request := GetMyCart(activeCartId.value);
        var reply := backend(request);
        calls := [request];
        if reply.Answered? && reply.success && reply.data.Some? {
          cart := MapItems(reply.data.value.items, backendUrl);
          totalPrice := reply.data.value.totalPrice.GetOr(0);
        } else if reply.Answered? && !reply.success {
          error := Some(OrElse(reply.message, "Failed to fetch cart."));
          cart := [];
          totalPrice := 0;
        } else {
          error := Some(OrElse(if reply.Thrown? then reply.message else None, "An error occurred while fetching cart."));
          cart := [];
          totalPrice := 0;
        }
      } else {
        cart := [];
        totalPrice := 0;
      }
    }

    /** The user-cart lookup of `fetchCart`. */
    method LookupUserCart(currentCartId: Option<string>, userId: string, backend: Request -> Reply)
      returns (calls: seq<Request>, activeCartId: Option<string>, proceed: bool)
      modifies this, storage
      ensures LookupOutcome(Step(Snapshot(), storage.entries, calls), activeCartId, proceed)
           == LookupStep(old(Snapshot()), old(storage.entries), currentCartId, userId, backend, backendUrl)
    {
      var lookup := GetUserCart(userId);
      var reply := backend(lookup);
      calls := [lookup];
      activeCartId := currentCartId;
      proceed := true;
      if reply.Answered? && reply.success && reply.data.Some? {
        activeCartId := reply.data.value.cartId;
        storage.SetItem("cartId", activeCartId.GetOr(""));
        cartId := activeCartId;
        cart := MapItems(reply.data.value.items, backendUrl);
        totalPrice := reply.data.value.totalAmount.GetOr(0);
      } else if reply.Answered? && !reply.success && reply.message == Some("Resource not found") {
        error := Some("Your cart is empty.");
      } else {
        var fallback := if reply.Answered? then "Failed to initialize cart for user." else "An error occurred while fetching cart.";
        error := Some(OrElse(reply.message, fallback));
        cart := [];
        totalPrice := 0;
        loading := false;
        proceed := false;
      }
    }

    /** `fetchCart(currentCartId)`. */
    method FetchCart(currentCartId: Option<string>, backend: Request -> Reply) returns (calls: seq<Request>)
      modifies this, storage
      ensures Step(Snapshot(), storage.entries, calls)
           == FetchCartStep(old(Snapshot()), old(storage.entries), currentCartId, backend, backendUrl)
    {
      loading := true;
      error := None;
      successMessage := None;
      calls := [];
      ghost var started := Snapshot();
      assert started == Started(old(Snapshot()));
      var activeCartId := currentCartId;
      var userId := storage.GetItem("userId");
      if !Truthy(activeCartId) && Truthy(userId) {
        var proceed;
        calls, activeCartId, proceed := LookupUserCart(activeCartId, userId.value, backend);
        if !proceed {
          // The failed lookup has already ended loading.
          return;
        }
      }
      var more := FetchById(activeCartId, backend);
      calls := calls + more;
      loading := false;
    }

    /** The mount effect. */
    method Mount(backend: Request -> Reply) returns (calls: seq<Request>)
      modifies this, storage
      ensures Step(Snapshot(), storage.entries, calls)
           == MountStep(old(Snapshot()), old(storage.entries), backend, backendUrl)
    {
      var stored := storage.GetItem("cartId");
      if Truthy(stored) {
        cartId := stored;
      }
      calls := FetchCart(stored, backend);
    }

    /** `addItem(productId, quantity)`. */
    method AddItem(productId: string, quantity: int, backend: Request -> Reply) returns (calls: seq<Request>)
      modifies this, storage
      ensures Step(Snapshot(), storage.entries, calls)
           == AddItemStep(old(Snapshot()), old(storage.entries), productId, quantity, backend, backendUrl)
    {
      loading := true;
      error := None;
      successMessage := None;
      calls := [];
      var currentCartId := cartId;
      var userId := storage.GetItem("userId");
      if !Truthy(userId) {
        error := Some("User not authenticated. Please log in to add items to cart.");
        loading := false;
        return;
      }
      if !Truthy(currentCartId) {
        calls := AddWithoutCart(userId.value, productId, quantity, backend);
      } else {
        var add := PostAddItem(productId, quantity, currentCartId);
        var reply := backend(add);
        calls := [add];
        if reply.Thrown? {
          error := Some(OrElse(reply.message, "An error occurred while adding item to cart."));
        } else if reply.success {
          var more := FetchCart(currentCartId, backend);
          calls := calls + more;
          successMessage := Some("Item added to cart successfully!");
        } else {
          error := Some(OrElse(reply.message, "Failed to add item to cart."));
        }
      }
      loading := false;
    }

    /** The branch of `addItem` without a cart id. */
    method AddWithoutCart(userId: string, productId: string, quantity: int, backend: Request -> Reply)
      returns (calls: seq<Request>)
      modifies this, storage
      ensures Step(Snapshot(), storage.entries, calls)
           == AddWithoutCartStep(old(Snapshot()), old(storage.entries), userId, productId, quantity, backend, backendUrl)
    {
      var add := PostAddItem(productId, quantity, None);
      var reply := backend(add);
      calls := [add];
      if reply.Thrown? {
        error := Some(OrElse(reply.message, "An error occurred while adding item to cart."));
      } else if reply.success {
        var lookup := GetUserCart(userId);
        var found := backend(lookup);
        calls := [add, lookup];
        if found.Thrown? {
          error := Some(OrElse(found.message, "An error occurred while adding item to cart."));
        } else if found.success && found.data.Some? {
          var newCartId := found.data.value.id;
          storage.SetItem("cartId", StoredString(newCartId));
          cartId := newCartId;
          ghost var before, stored := Snapshot(), storage.entries;
          assert before == old(Snapshot()).(cartId := newCartId);
          var more := FetchCart(newCartId, backend);
          calls := [add, lookup] + more;
          successMessage := Some("Item added to cart successfully!");
        } else {
          error := Some(OrElse(found.message, "Failed to retrieve user cart after adding item."));
        }
      } else {
        error := Some(OrElse(reply.message, "Failed to add item to cart."));
      }
    }

    /** `removeItem(productId)`. */
    method RemoveItem(productId: string, backend: Request -> Reply) returns (calls: seq<Request>)
      modifies this, storage
      ensures Step(Snapshot(), storage.entries, calls)
           == RemoveItemStep(old(Snapshot()), old(storage.entries), productId, backend, backendUrl)
    {
      calls := [];
      if !Truthy(cartId) {
        error := Some("No cart found to remove items from.");
        return;
      }
      loading := true;
      error := None;
      successMessage := None;
      var request := DeleteItem(cartId.value, productId);
      var reply := backend(request);
      calls := [request];
      if reply.Thrown? {
        error := Some(OrElse(reply.message, "An error occurred while removing item from cart."));
      } else if reply.success {
        var more := FetchCart(cartId, backend);
        calls := calls + more;
        successMessage := Some("Item removed from cart successfully!");
      } else {
        error := Some(OrElse(reply.message, "Failed to remove item from cart."));
      }
      loading := false;
    }

    /** `updateItemQuantity(productId, quantity)`. */
    method UpdateItemQuantity(productId: string, quantity: int, backend: Request -> Reply) returns (calls: seq<Request>)
      modifies this, storage
      ensures Step(Snapshot(), storage.entries, calls)
           == UpdateItemQuantityStep(old(Snapshot()), old(storage.entries), productId, quantity, backend, backendUrl)
    {
      calls := [];
      if !Truthy(cartId) {
        error := Some("No cart found to update items in.");
        return;
      }
      loading := true;
      error := None;
      successMessage := None;
      var request := PutItemQuantity(cartId.value, productId, quantity);
      var reply := backend(request);
      calls := [request];
      if reply.Thrown? {
        error := Some(OrElse(reply.message, "An error occurred while updating item quantity."));
      } else if reply.success {
        var more := FetchCart(cartId, backend);
        calls := calls + more;
        successMessage := Some("Item quantity updated successfully!");
      } else {
        error := Some(OrElse(reply.message, "Failed to update item quantity."));
      }
      loading := false;
    }

    /** `clearCart()`. */
    method ClearCart(backend: Request -> Reply) returns (calls: seq<Request>)
      modifies this, storage
      ensures Step(Snapshot(), storage.entries, calls) == ClearCartStep(old(Snapshot()), old(storage.entries), backend)
    {
      calls := [];
      if !Truthy(cartId) {
        error := Some("No cart found to clear.");
        return;
      }
      loading := true;
      error := None;
      successMessage := None;
      var request := DeleteCart(cartId.value);
      var reply := backend(request);
      calls := [request];
      if reply.Thrown? {
        error := Some(OrElse(reply.message, "An error occurred while clearing cart."));
      } else if reply.success {
        cart := [];
        totalPrice := 0;
        storage.RemoveItem("cartId");
        cartId := None;
        successMessage := Some("Cart cleared successfully!");
      } else {
        error := Some(OrElse(reply.message, "Failed to clear cart."));
      }
      loading := false;
    }
  }
}
