# spring-shop core in Dafny

This project models the core of spring-shop, a small online shop with a Spring
backend and a Next.js frontend, and proves properties of that model.

Backend services:

- **Cart lines** (`CartItemService`): adding a product merges it into its
  existing line or appends a new line priced at the product's current price.
  Removing takes out exactly the first line of the product. Updating sets one
  line's quantity, refreshes its price and recomputes the cart total.
- **Carts** (`CartService`): lookup, clearing, stored totals, and
  get-or-create of a user's cart.
- **Orders** (`OrderService`): cart lines become order lines, each line draws
  down its product's inventory, and an order's total is a fold of price times
  quantity.
- **Catalogue and users** (`ProductService`, `UserService`): CRUD over maps
  with uniqueness of (name, brand) and of email, get-or-create of a category,
  not-found errors, and which fields an update overwrites. Creating a user also
  creates the user's cart.

Frontend stores:

- **Cart store** (`CartContext.tsx`): a state machine that reconciles a
  locally cached cart id with the backend's cart and re-fetches after each
  mutation.
- **Session store** (`AuthContext.tsx`): login, logout and init, plus the
  derived admin flag.
- **Search-page filter** (`search/page.tsx`): a filter over brand and a price
  range, and the list of distinct brands.

Layout:

- `domain.dfy`: the entities as datatypes, exceptions as a `Result` or
  `Outcome` datatype, and the folds over cart lines.
- `store.dfy`: the repositories as one class `Repositories.Store`. Products,
  carts, users and orders are maps keyed by id; categories are a sequence in
  insertion order. The class also holds the id counters, the invariants every
  service preserves, and the save operations that keep them.
- `cart_service.dfy`, `cart_item_service.dfy`, `order_service.dfy`,
  `product_service.dfy` and `user_service.dfy`: one module per service.
  Operations that write to a repository are methods that modify the store.
  The lookups (`GetCart`, `GetTotalPrice`, `GetCartByUserId`, `GetCartItem`,
  `GetOrder`, `GetProductById`, `GetUserById`) are methods that only read
  it. `CreateOrder`, `CreateProduct` and the cart-line functions touch no
  repository and are functions. `UpdateExistingProduct`, `FindCategoryByName`,
  `ConvertToDto` and `GetConvertedProducts` are functions too, but they read
  repository contents that are passed in as arguments: the category sequence
  for the `categoryRepository.findByName` lookups, and the images for the
  `imageRepository.findByProductId` lookups.
- `browser.dfy`: `localStorage` as a class that the two frontend stores
  share.
- `cart_context.dfy` and `auth_context.dfy`: the frontend stores as classes.
  Each asynchronous operation is one sequential method. In the cart store,
  each method is proved equal to a pure step function, and the properties are
  proved about those step functions.
- `search.dfy`: pure functions and lemmas.

Parameters stand in for things the model cannot see:

- **The backend** seen by the cart store is a function `Request -> Reply`. An
  axios rejection is the `Thrown` reply.
- **The password encoder** is a function parameter of `CreateUser`.
- **The image repository** is the images argument of `ConvertToDto`, and the
  function `imagesOf` from product id to images in `GetConvertedProducts`.
- **The JWT decoder** behind `getRolesFromToken` is a function parameter of
  the session store.
- **Today's date** is a parameter of `CreateOrder`.

## Model

| member | source | states |
|---|---|---|
| Repositories.Store.SaveCart | src/main/java/com/sultan/springshop/service/cart/CartItemService.java:48 | saving a stored cart with the same owner and valid lines replaces just that cart and keeps the invariants |
| Repositories.Store.SaveProduct | src/main/java/com/sultan/springshop/service/order/OrderService.java:47 | saving a stored product replaces just that product and keeps the invariants |
| Repositories.Store.SaveNewCategory | src/main/java/com/sultan/springshop/service/product/ProductService.java:48-49 | a category with an unused name is appended under the next id; names and ids stay unique |
| Repositories.Store.SaveNewProduct | src/main/java/com/sultan/springshop/service/product/ProductService.java:54 | a new product is stored under the next id, which it carries; no stored product is replaced |
| Domain.SumTotals | src/main/java/com/sultan/springshop/service/cart/CartItemService.java:70-71 | the sum of the line totals from zero: zero for no lines, and never negative when no line total is |
| CartItemService.FindLine | src/main/java/com/sultan/springshop/service/cart/CartItemService.java:35-36 | the index of the first line with the product id; none exactly when no line has it |
| CartItemService.Repriced | src/main/java/com/sultan/springshop/service/cart/CartItemService.java:45 | the line's total agrees with unit price times quantity; product, quantity and unit price are kept |
| CartItemService.MergeLine | src/main/java/com/sultan/springshop/service/cart/CartItemService.java:35-46 | the lines after adding: the product has a line, and the count grows by one exactly when it had none before |
| CartItemService.RemoveLine | src/main/java/com/sultan/springshop/service/cart/CartItemService.java:54-56 | the lines after removing: one line fewer when the product had a line, else the same count |
| CartItemService.RefreshLine | src/main/java/com/sultan/springshop/service/cart/CartItemService.java:63-68 | the lines after updating: same count, and every line keeps its product |
| CartItemService.MergeLineQuantities | src/main/java/com/sultan/springshop/service/cart/CartItemService.java:35-46 | adding raises the product's total quantity by `quantity` and leaves every other product's quantity unchanged |
| CartItemService.MergeLineShape | src/main/java/com/sultan/springshop/service/cart/CartItemService.java:35-46 | an existing line keeps its product and unit price, gains the quantity and gets the matching total, with no new line and no other line changed; otherwise exactly one line is appended with the product's current price |
| CartItemService.MergeLineKeepsInvariants | src/main/java/com/sultan/springshop/service/cart/CartItemService.java:35-46 | adding keeps one line per product and every line total consistent |
| CartItemService.RemoveLineShape | src/main/java/com/sultan/springshop/service/cart/CartItemService.java:53-58 | exactly the first line of the product is removed; the other lines keep their order |
| CartItemService.RemoveLineQuantities | src/main/java/com/sultan/springshop/service/cart/CartItemService.java:53-58 | the product's quantity drops by the removed line's quantity; other products are unaffected |
| CartItemService.RemoveLineKeepsInvariants | src/main/java/com/sultan/springshop/service/cart/CartItemService.java:53-58 | in a cart with one line per product, no line of the product is left; the invariants are kept |
| CartItemService.RefreshLineSpec | src/main/java/com/sultan/springshop/service/cart/CartItemService.java:61-68 | only the first matching line changes: its quantity is set and its unit price refreshed. An absent product changes no line. Other products' quantities are kept |
| CartItemService.GetCartItem | src/main/java/com/sultan/springshop/service/cart/CartItemService.java:77-81 | "Cart not found", "item not found", or the first line of the product |
| CartItemService.AddItemToCart | src/main/java/com/sultan/springshop/service/cart/CartItemService.java:27-50 | an unknown cart or product throws first and nothing changes; otherwise only that cart's lines change, to the merge at the current price |
| CartItemService.RemoveItemFromCart | src/main/java/com/sultan/springshop/service/cart/CartItemService.java:53-58 | "Cart not found" or "item not found" leave the store unchanged; otherwise the product's line leaves that cart and nothing else changes |
| CartItemService.UpdateItemQuantity | src/main/java/com/sultan/springshop/service/cart/CartItemService.java:61-74 | the refreshed lines are saved with total equal to the sum of the line totals, even when no line matched |
| CartService.GetCart | src/main/java/com/sultan/springshop/service/cart/CartService.java:29-34 | the stored cart with its total unchanged, or "Cart not found" |
| CartService.ClearCart | src/main/java/com/sultan/springshop/service/cart/CartService.java:38-43 | on success the cart is gone from the store and nothing else changes; an unknown id throws and changes nothing |
| CartService.GetTotalPrice | src/main/java/com/sultan/springshop/service/cart/CartService.java:46-49 | the stored total of the cart, or "Cart not found" |
| CartService.GetCartByUserId | src/main/java/com/sultan/springshop/service/cart/CartService.java:61-63 | a cart of the user; none exactly when the user has no cart |
| CartService.InitializeNewCart | src/main/java/com/sultan/springshop/service/cart/CartService.java:52-58 | an existing cart is returned with the carts unchanged; otherwise exactly one empty cart bound to the user is created. Afterwards the user owns exactly one cart |
| OrderService.OrderItemsOf | src/main/java/com/sultan/springshop/service/order/OrderService.java:43-50 | one order line per cart line, in order, with the cart line's product, quantity and unit price |
| OrderService.DecrementAll | src/main/java/com/sultan/springshop/service/order/OrderService.java:44-47 | the inventory draw-down over all lines adds and removes no product |
| OrderService.DecrementAllSpec | src/main/java/com/sultan/springshop/service/order/OrderService.java:44-47 | the set of products is kept; each product's inventory drops by the cart's total quantity of it, with no lower bound |
| OrderService.DecrementAllUntouched | src/main/java/com/sultan/springshop/service/order/OrderService.java:44-47 | products without a line in the cart are unchanged |
| OrderService.CalculateTotalAmount | src/main/java/com/sultan/springshop/service/order/OrderService.java:52-55 | the fold of price times quantity from zero: zero for no lines, and never negative when no price or quantity is |
| OrderService.CalculateTotalAmountAppend | src/main/java/com/sultan/springshop/service/order/OrderService.java:52-55 | the total of a concatenation is the sum of the totals |
| OrderService.OrderTotalMatchesCart | src/main/java/com/sultan/springshop/service/order/OrderService.java:52-55 | the order total of a cart's order lines equals the sum of the cart's line totals |
| OrderService.CreateOrder | src/main/java/com/sultan/springshop/service/order/OrderService.java:35-41 | a new order is PENDING and dated today; user, lines and total are unset |
| OrderService.CreateOrderItems | src/main/java/com/sultan/springshop/service/order/OrderService.java:43-50 | returns the order lines of the cart and leaves the products drawn down line by line; everything else is unchanged |
| OrderService.GetOrder | src/main/java/com/sultan/springshop/service/order/OrderService.java:58-60 | the stored order, or "Order not found" |
| ProductService.FindCategoryByName | src/main/java/com/sultan/springshop/service/product/ProductService.java:46 | a stored category with that name; none exactly when no category has the name |
| ProductService.CreateProduct | src/main/java/com/sultan/springshop/service/product/ProductService.java:76-84 | the product carries the request's name, brand, price, inventory and description and the resolved category |
| ProductService.AddProduct | src/main/java/com/sultan/springshop/service/product/ProductService.java:35-55 | a duplicate (name, brand) throws and the catalogue is unchanged; otherwise an existing category is reused or exactly one is created, and one fresh product is saved |
| ProductService.UpdateExistingProduct | src/main/java/com/sultan/springshop/service/product/ProductService.java:64-74 | the six fields are overwritten and the id is kept; the category is only looked up and is absent when no category has the name |
| ProductService.UpdateProduct | src/main/java/com/sultan/springshop/service/product/ProductService.java:58-62 | "Product not found!" for an unknown id; otherwise the updated product replaces the stored one and no category is created |
| ProductService.GetProductById | src/main/java/com/sultan/springshop/service/product/ProductService.java:91-93 | the stored product, or "Product not found" |
| ProductService.DeleteProductById | src/main/java/com/sultan/springshop/service/product/ProductService.java:96-100 | removes exactly that product, or throws "Product not found!" and changes nothing |
| ProductService.ConvertToDto | src/main/java/com/sultan/springshop/service/product/ProductService.java:143-149 | the DTO carries every field of the product and exactly the given images |
| ProductService.GetConvertedProducts | src/main/java/com/sultan/springshop/service/product/ProductService.java:138-149 | one DTO per product, in order, each with its product's fields and that product's images |
| UserService.GetUserById | src/main/java/com/sultan/springshop/service/user/UserService.java:32-34 | the stored user, or "User not found" |
| UserService.CreateUser | src/main/java/com/sultan/springshop/service/user/UserService.java:37-48 | a taken email throws and creates neither user nor cart. Otherwise a user is saved with the request's email and names and the encoded password, plus one new cart bound to that user. Emails stay unique |
| UserService.UpdateUser | src/main/java/com/sultan/springshop/service/user/UserService.java:51-57 | only the first and last names change; email and password are kept; "User not found" for an unknown id |
| UserService.DeleteUser | src/main/java/com/sultan/springshop/service/user/UserService.java:60-64 | removes exactly that user, or throws "User not found" |
| CartContext.MapItems | frontend/src/context/CartContext.tsx:79-89 | one displayed line per reply line, in order, with the product's id, name and price and the line's quantity. The image is the backend URL followed by the first image's download URL, or empty when there is no image. Absent items give an empty cart |
| CartContext.FetchByIdStep | frontend/src/context/CartContext.tsx:103-126 | the by-id leg keeps the storage, cart id, `loading` and success message. With no active id it sends nothing and empties the cart and total; with one it sends exactly one fetch of that id |
| CartContext.LookupStep | frontend/src/context/CartContext.tsx:70-101 | the lookup sends exactly one user-cart request. It continues exactly on a delivered reply or the "Resource not found" sentinel. Otherwise it stops with the storage and cart id kept, an empty cart and total, an error, and `loading` false |
| CartContext.FetchCartStep | frontend/src/context/CartContext.tsx:59-134 | every path of `fetchCart` ends with `loading` false and no success message |
| CartContext.FetchCartWithoutIdentity | frontend/src/context/CartContext.tsx:123-126 | with no cart id and no stored user id there is no request, and the cart and total are emptied with no error |
| CartContext.FetchCartById | frontend/src/context/CartContext.tsx:103-122 | with a cart id the user lookup is skipped. Exactly one fetch by id is sent, and the cart id and storage stay. A failed fetch empties the cart and total and sets an error; a delivered one shows the reply's items and total |
| CartContext.FetchCartNoUserCart | frontend/src/context/CartContext.tsx:91-93 | the "Resource not found" sentinel gives 'Your cart is empty.', an empty cart and no further request |
| CartContext.FetchCartLookupFailed | frontend/src/context/CartContext.tsx:94-100 | any other failed lookup gives the reply's message or the matching fallback, an empty cart and no fetch by id |
| CartContext.FetchCartAdopts | frontend/src/context/CartContext.tsx:74-78 | a found user cart's id is adopted and persisted, or the empty string when it is absent. A truthy adopted id is then fetched |
| CartContext.FetchCartIdempotent | frontend/src/context/CartContext.tsx:59-134 | reconciling twice against an unchanged backend leaves the same state and storage as reconciling once |
| CartContext.FetchByIdOverwrites | frontend/src/context/CartContext.tsx:103-126 | the by-id leg sets the cart and total on every path, so their earlier values do not affect its outcome |
| CartContext.FetchCartIdempotentById | frontend/src/context/CartContext.tsx:59-134 | with a cart id, a second reconcile leaves the state and storage of the first |
| CartContext.FetchCartIdempotentAdopted | frontend/src/context/CartContext.tsx:59-134 | after adopting a found user cart's id, a second reconcile leaves the state and storage of the first |
| CartContext.MountStep | frontend/src/context/CartContext.tsx:51-57 | a stored cart id is adopted and fetched directly, with no user lookup; `loading` ends false |
| CartContext.AddItemStep | frontend/src/context/CartContext.tsx:136-180 | every path of `addItem` ends with `loading` false |
| CartContext.AddItemUnauthenticated | frontend/src/context/CartContext.tsx:144-148 | without a stored user id there is no request and the storage is unchanged. The authentication error is set, `loading` ends false and the success message is cleared; the rest of the state is kept |
| CartContext.AddItemProtocol | frontend/src/context/CartContext.tsx:150-174 | the add request goes first, carrying the cart id when there is one. A refused or failed add leaves the cart, the cart id and the storage. A successful add to a known cart is followed by exactly a `fetchCart` of that cart and the success message |
| CartContext.AddWithoutCartStep | frontend/src/context/CartContext.tsx:150-165 | the add request, without a cart id, goes first; when it fails, only the error changes and nothing else is sent |
| CartContext.AddWithoutCartAfterAdd | frontend/src/context/CartContext.tsx:152-162 | after a successful add, the user's cart is looked up. A delivered reply's `id` is persisted ("undefined" when absent) and adopted, then `fetchCart` runs with it and the success message is set. Any other reply sets its message or the fallback and nothing else |
| CartContext.AddItemToNewCart | frontend/src/context/CartContext.tsx:136-165 | `addItem` with a user id and no cart id, after a successful add and a delivered lookup, ends as `fetchCart` of the adopted `id` plus the success message |
| CartContext.AddItemToNewCartWithoutId | frontend/src/context/CartContext.tsx:150-159 | when the lookup reply has a `cartId` but no `id`, `addItem` sends the add, two lookups and one fetch by `cartId`; that id ends adopted and stored, with the success message |
| CartContext.MutationStep | frontend/src/context/CartContext.tsx:187-202 | the request goes first and `loading` ends false. Success sets the given success message; a refused or failed request sends nothing more and keeps the storage, cart and cart id, with an error |
| CartContext.RemoveItemStep | frontend/src/context/CartContext.tsx:182-203 | without a cart id only the error changes and no request is sent; otherwise the removal request is followed by a re-fetch on success |
| CartContext.UpdateItemQuantityStep | frontend/src/context/CartContext.tsx:205-226 | without a cart id only the error changes and no request is sent; otherwise the update request is followed by a re-fetch on success |
| CartContext.ClearCartStep | frontend/src/context/CartContext.tsx:228-252 | without a cart id only the error changes. Success empties the cart and total, forgets the cart id and removes the stored one. Failure keeps the cart id and the cart |
| CartContext.CartProvider.constructor | frontend/src/context/CartContext.tsx:44-49 | the initial state: an empty cart, total 0, loading, no error, no cart id |
| CartContext.CartProvider.LookupUserCart | frontend/src/context/CartContext.tsx:70-101 | the user-cart lookup reaches exactly the state, storage, active cart id and continuation of `LookupStep` |
| CartContext.CartProvider.FetchCart | frontend/src/context/CartContext.tsx:59-134 | the step-by-step `fetchCart` reaches exactly the state, storage and requests of `FetchCartStep` |
| CartContext.CartProvider.FetchById | frontend/src/context/CartContext.tsx:103-126 | the by-id leg reaches exactly the state of `FetchByIdStep` |
| CartContext.CartProvider.Mount | frontend/src/context/CartContext.tsx:51-57 | the mount effect reaches exactly the outcome of `MountStep` |
| CartContext.CartProvider.AddItem | frontend/src/context/CartContext.tsx:136-180 | the step-by-step `addItem` reaches exactly the outcome of `AddItemStep` |
| CartContext.CartProvider.AddWithoutCart | frontend/src/context/CartContext.tsx:150-165 | the branch without a cart id reaches exactly the outcome of `AddWithoutCartStep` |
| CartContext.CartProvider.RemoveItem | frontend/src/context/CartContext.tsx:182-203 | reaches exactly the outcome of `RemoveItemStep` |
| CartContext.CartProvider.UpdateItemQuantity | frontend/src/context/CartContext.tsx:205-226 | reaches exactly the outcome of `UpdateItemQuantityStep` |
| CartContext.CartProvider.ClearCart | frontend/src/context/CartContext.tsx:228-252 | reaches exactly the outcome of `ClearCartStep` |
| AuthContext.RolesFromToken | frontend/src/api/index.ts:27-39 | no roles without a token or when decoding fails; otherwise the decoded roles |
| AuthContext.IsAdmin | frontend/src/context/AuthContext.tsx:44 | true exactly when some role is "ROLE_ADMIN" |
| AuthContext.AuthProvider.constructor | frontend/src/context/AuthContext.tsx:18-20 | signed out, no roles, loading |
| AuthContext.AuthProvider.Init | frontend/src/context/AuthContext.tsx:22-30 | a stored token signs in with its roles and ends loading; without one nothing changes, so loading stays true |
| AuthContext.AuthProvider.Login | frontend/src/context/AuthContext.tsx:32-36 | the token is stored and nothing else; signed in with the roles of the stored token; loading untouched |
| AuthContext.AuthProvider.Logout | frontend/src/context/AuthContext.tsx:38-42 | only the token leaves storage; signed out with no roles, so not an administrator |
| Search.FilterProducts | frontend/src/app/search/page.tsx:56-63 | the result is no longer than the input |
| Search.FilterMembership | frontend/src/app/search/page.tsx:56-63 | a product is kept exactly when it passes the brand, minimum and maximum conditions, with inclusive bounds |
| Search.FilterIsSubsequence | frontend/src/app/search/page.tsx:57 | the result is an order-preserving subsequence of the products |
| Search.FilterAppend | frontend/src/app/search/page.tsx:57 | filtering a concatenation is the concatenation of the filtered parts |
| Search.FilterNoRefinement | frontend/src/app/search/page.tsx:58-60 | with all three inputs empty, the result is the products |
| Search.FilterEmptyRange | frontend/src/app/search/page.tsx:59-60 | with both bounds set and minimum above maximum, the result is empty |
| Search.FilterKeepsBrand | frontend/src/app/search/page.tsx:58 | with a brand chosen, every result has that brand |
| Search.Distinct | frontend/src/app/search/page.tsx:65 | the same strings as the input, each once |
| Search.DistinctFirstOccurrenceOrder | frontend/src/app/search/page.tsx:65 | the distinct strings come in the order of their first occurrences |
| Search.AvailableBrands | frontend/src/app/search/page.tsx:65 | exactly the brands of the products, without duplicates, in first-occurrence order |

## Left out

- **Cart entity methods.** `Cart.addItem`, `Cart.removeItem` and `CartItem.setTotalPrice` are not part of this model. The model makes four assumptions about them:
  - a line's total is unit price times quantity, the product `calculateTotalAmount` uses;
  - `addItem` does not duplicate a line already in the cart;
  - neither `addItem` nor `removeItem` recomputes the cart's stored total;
  - a cart's lines form a sequence: `addItem` appends a new line at the end, and `removeItem` keeps the order of the remaining lines. Only the order claims of `MergeLineShape` and `RemoveLineShape` depend on this; quantities, totals and one-line-per-product do not.
- **Order link.** The order line's back-reference to its order is not modelled, so `CreateOrderItems` takes no order.
- **`placeOrder`** is a stub that returns null, so there is nothing to model.
- **DTO helpers.** `convertCarttoCartDto`, `convertUsertoDto` and `getAuthenticatedUser` are mapper and security-context calls.
- **Repository pass-throughs.** The list queries of `ProductService` (`getAllProducts`, the by-category, brand and name queries, `countProductsByBrandAndName`) only forward to the repository.
- **`clearCart` steps.** The intermediate `deleteAllByCartId` and `getItems().clear()` are folded into the one cart removal, which has the same final state.
- **Vanished products.** A cart line can refer to a product that is no longer stored. `UpdateItemQuantity` then keeps the line's old unit price, and `CreateOrderItems` skips that line's inventory decrement. The source does not handle this case itself.
- CartService.InitializeNewCart: requires that the user is stored. The source receives a saved `User` object (its only caller saves it first); the model uses this to keep every cart's owner a known user.
- ProductService.UpdateProduct: as in the source, does not re-check (name, brand) uniqueness.
- **Numbers.** Money is exact integers (cents), with no `BigDecimal` scale. Quantities and inventory are unbounded, so a 32-bit `int` overflow is not modelled.
- **HTTP layer.** Controllers, the mapping of exceptions to HTTP status codes, the payment service (Stripe calls, floating-point cents), JWT signing and the security configuration, image storage and environment configuration are outside the model.
- **Frontend concurrency.** Overlapping calls, React's deferred state updates and stale closures, and cross-tab storage events are not modelled. Each operation runs as one sequential step with replies as inputs.
- **Frontend replies.** Only the reply fields the stores read are modelled. JavaScript typing (a numeric cart id, a non-array `items`) and `NaN` totals are not modelled. Search prices are integers, while the page accepts any number.
- **Search fetching.** The search page's fetching effect and its `useState` handlers are UI code. Only `getFilteredProducts` and `availableBrands` are modelled.

## Notes

- **Logout.** `logout` removes only `jwtToken`; the stored `userId` and `cartId` stay in `localStorage`.
- **Session user id.** The session store holds no user id; the cart store reads `userId` from `localStorage`.
