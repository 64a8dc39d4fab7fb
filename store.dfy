/** The backend's repositories as one in-memory store. Each JPA repository
    becomes a field; `save` of a new entity draws the next id of that table. */
module Repositories {
  import opened Wrappers
  import opened Domain

  class Store {
    var products: map<nat, Product>
    /** Categories in insertion order, so that `findByName` has a first match. */
    var categories: seq<Category>
    var carts: map<nat, Cart>
    var users: map<nat, User>
    var orders: map<nat, Order>
    var nextProductId: nat
    var nextCategoryId: nat
    var nextCartId: nat
    var nextUserId: nat

    /** Every stored product carries its own key, and keys are below the counter. */
    ghost predicate ProductsValid()
      reads this
    {
      forall p :: p in products ==> p < nextProductId && products[p].id == p
    }

    /** Category ids are drawn from the counter; ids and names are unique. */
    ghost predicate CategoriesValid()
      reads this
    {
      && (forall i :: 0 <= i < |categories| ==> categories[i].id < nextCategoryId)
      && (forall i, j :: 0 <= i < j < |categories| ==>
            categories[i].id != categories[j].id && categories[i].name != categories[j].name)
    }

    /** Cart keys are drawn from the counter; a cart has at most one line per
        product, every line is priced, an owner id was issued by the user
        table, and a user owns at most one cart. */
    ghost predicate CartsValid()
      reads this
    {
      && (forall c :: c in carts ==>
            && c < nextCartId
            && UniqueLines(carts[c].items)
            && AllPriced(carts[c].items)
            && (carts[c].userId.Some? ==> carts[c].userId.value < nextUserId))
      && (forall c, d :: c in carts && d in carts && carts[c].userId.Some? && carts[c].userId == carts[d].userId ==> c == d)
    }

    /** User keys are drawn from the counter; at most one user per email. */
    ghost predicate UsersValid()
      reads this
    {
      && (forall u :: u in users ==> u < nextUserId && users[u].id == u)
      && (forall u, v :: u in users && v in users && users[u].email == users[v].email ==> u == v)
    }

    ghost predicate Valid()
      reads this
    {
      ProductsValid() && CategoriesValid() && CartsValid() && UsersValid()
    }

    /** Products, categories and their id counters are as before. */
    twostate predicate CatalogueUnchanged()
      reads this
    {
      && products == old(products) && categories == old(categories)
      && nextProductId == old(nextProductId) && nextCategoryId == old(nextCategoryId)
    }

    /** Carts and the cart id counter are as before. */
    twostate predicate CartsUnchanged()
      reads this
    {
      carts == old(carts) && nextCartId == old(nextCartId)
    }

    /** Users and the user id counter are as before. */
    twostate predicate UsersUnchanged()
      reads this
    {
      users == old(users) && nextUserId == old(nextUserId)
    }

    /** `cartRepository.save` of a cart already stored under `id`, with the
        same owner and lines that keep the cart invariants: that key now
        holds `cart`, and nothing else changes. */
    method SaveCart(id: nat, cart: Cart)
      requires Valid() && id in carts
      requires UniqueLines(cart.items) && AllPriced(cart.items) && cart.userId == carts[id].userId
      modifies this
      ensures Valid()
      ensures carts == old(carts)[id := cart] && nextCartId == old(nextCartId)
      ensures CatalogueUnchanged() && UsersUnchanged() && orders == old(orders)
    {
      carts := carts[id := cart];
    }

    /** `productRepository.save` of a product already stored under its id:
        that key now holds `product`, and nothing else changes. */
    method SaveProduct(product: Product)
      requires Valid() && product.id in products
      modifies this
      ensures Valid()
      ensures products == old(products)[product.id := product] && nextProductId == old(nextProductId)
      ensures categories == old(categories) && nextCategoryId == old(nextCategoryId)
      ensures CartsUnchanged() && UsersUnchanged() && orders == old(orders)
    {
      products := products[product.id := product];
    }

    /** `categoryRepository.save` of a new category with a name no stored
        category has: it is appended under the next category id. */
    method SaveNewCategory(name: string) returns (category: Category)
      requires Valid()
      requires forall i :: 0 <= i < |categories| ==> categories[i].name != name
      modifies this
      ensures Valid()
      ensures category == Category(old(nextCategoryId), name)
      ensures categories == old(categories) + [category] && nextCategoryId == old(nextCategoryId) + 1
      ensures products == old(products) && nextProductId == old(nextProductId)
      ensures CartsUnchanged() && UsersUnchanged() && orders == old(orders)
    {
      category := Category(nextCategoryId, name);
      nextCategoryId := nextCategoryId + 1;
      categories := categories + [category];
    }

    /** `productRepository.save` of a new product: it is stored under the
        next product id, which it carries. */
    method SaveNewProduct(product: Product)
      requires Valid() && product.id == nextProductId
      modifies this
      ensures Valid()
      ensures product.id !in old(products)
      ensures products == old(products)[product.id := product] && nextProductId == old(nextProductId) + 1
      ensures categories == old(categories) && nextCategoryId == old(nextCategoryId)
      ensures CartsUnchanged() && UsersUnchanged() && orders == old(orders)
    {
      nextProductId := nextProductId + 1;
      products := products[product.id := product];
    }

    /** An empty database. */
    constructor ()
      ensures Valid()
      ensures products == map[] && categories == [] && carts == map[] && users == map[] && orders == map[]
    {
      products, categories, carts, users, orders := map[], [], map[], map[], map[];
      nextProductId, nextCategoryId, nextCartId, nextUserId := 0, 0, 0, 0;
    }
  }
}
