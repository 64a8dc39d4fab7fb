/** `ProductService`: catalogue CRUD over the product and category
    repositories, and the conversion of products to DTOs. */
module ProductService {
  import opened Wrappers
  import opened Domain
  import opened Repositories

  /** The fields of `AddProductRequest`; the request's category is given by name. */
  datatype AddProductRequest = AddProductRequest(
    name: string, brand: string, price: int, inventory: int, description: string, categoryName: string)

  /** The fields of `UpdateProductRequest`; its `id` field is never read. */
  datatype UpdateProductRequest = UpdateProductRequest(
    id: Option<nat>, name: string, brand: string, price: int, inventory: int, description: string, categoryName: string)

  datatype ImageDto = ImageDto(id: nat, fileName: string, downloadUrl: string)

  datatype ProductDto = ProductDto(
    id: nat, name: string, brand: string, price: int, inventory: int, description: string,
    category: Option<Category>, images: seq<ImageDto>)

  /** `categoryRepository.findByName`: the first category with that name, or null. */
  function FindCategoryByName(categories: seq<Category>, name: string): (r: Option<Category>)
    ensures r.Some? ==> r.value in categories && r.value.name == name
    ensures r.None? <==> forall i :: 0 <= i < |categories| ==> categories[i].name != name
  {
    if categories == [] then None
    else if categories[0].name == name then Some(categories[0])
    else FindCategoryByName(categories[1..], name)
  }

  /** `productRepository.existsByNameAndBrand`. */
  predicate ProductExists(products: map<nat, Product>, name: string, brand: string) {
    exists p :: p in products && products[p].name == name && products[p].brand == brand
  }

  /** The message of the `AlreadyExistsException` thrown by `addProduct`. */
  function AlreadyExistsMessage(request: AddProductRequest): string {
    request.brand + " " + request.name + " already exists, you may update this product instead"
  }

  /** `createProduct`: the new product built from the request and the resolved
      category; `id` is the key its save receives. */
  function CreateProduct(request: AddProductRequest, id: nat, category: Category): (p: Product)
    ensures p.id == id && p.category == Some(category)
    ensures (p.name, p.brand, p.price, p.inventory, p.description)
         == (request.name, request.brand, request.price, request.inventory, request.description)
  {
    Product(id, request.name, request.brand, request.price, request.inventory, request.description, Some(category))
  }

  /** `addProduct`: refuses a second product with the same (name, brand);
      otherwise resolves the category by name, creating exactly one new
      category when none has that name, and saves a fresh product. */
  method AddProduct(s: Store, request: AddProductRequest) returns (r: Result<Product>)
    requires s.Valid()
    modifies s
    ensures s.Valid()
    ensures s.CartsUnchanged() && s.UsersUnchanged() && s.orders == old(s.orders)
    ensures old(ProductExists(s.products, request.name, request.brand)) ==>
      r == Err(AlreadyExists(AlreadyExistsMessage(request))) && s.CatalogueUnchanged()
    ensures !old(ProductExists(s.products, request.name, request.brand)) ==>
      var found := FindCategoryByName(old(s.categories), request.categoryName);
      var category := if found.Some? then found.value else Category(old(s.nextCategoryId), request.categoryName);
      && r == Ok(CreateProduct(request, old(s.nextProductId), category))
      && r.value.id !in old(s.products)
      && s.products == old(s.products)[r.value.id := r.value]
      && s.nextProductId == old(s.nextProductId) + 1
      && (found.Some? ==> s.categories == old(s.categories) && s.nextCategoryId == old(s.nextCategoryId))
      && (found.None? ==> s.categories == old(s.categories) + [category]
                          && s.nextCategoryId == old(s.nextCategoryId) + 1)
  {
    if ProductExists(s.products, request.name, request.brand) {
      return Err(AlreadyExists(AlreadyExistsMessage(request)));
    }
    var found := FindCategoryByName(s.categories, request.categoryName);
    var category: Category;
    if found.Some? {
      category := found.value;
    } else {
      category := s.SaveNewCategory(request.categoryName);
    }
    var product := CreateProduct(request, s.nextProductId, category);
    s.SaveNewProduct(product);
    r := Ok(product);
  }

  /** `updateExistingProduct`: overwrites name, brand, price, inventory,
      description and category; the id stays. The category is only looked up,
      so it is absent when no category has the requested name. */
  function UpdateExistingProduct(existing: Product, request: UpdateProductRequest, categories: seq<Category>): (p: Product)
    ensures p.id == existing.id
    ensures (p.name, p.brand, p.price, p.inventory, p.description)
         == (request.name, request.brand, request.price, request.inventory, request.description)
    ensures p.category.Some? ==> p.category.value in categories && p.category.value.name == request.categoryName
    ensures p.category.None? <==> forall i :: 0 <= i < |categories| ==> categories[i].name != request.categoryName
  {
    existing.(name := request.name, brand := request.brand, price := request.price,
              inventory := request.inventory, description := request.description,
              category := FindCategoryByName(categories, request.categoryName))
  }

  /** `updateProduct`: "Product not found!" for an unknown id; otherwise the
      updated product replaces the stored one under the same id. */
  method UpdateProduct(s: Store, request: UpdateProductRequest, productId: nat) returns (r: Result<Product>)
    requires s.Valid()
    modifies s
    ensures s.Valid()
    ensures s.CartsUnchanged() && s.UsersUnchanged() && s.orders == old(s.orders)
    ensures s.categories == old(s.categories) && s.nextCategoryId == old(s.nextCategoryId)
    ensures s.nextProductId == old(s.nextProductId)
    ensures productId !in old(s.products) ==>
      r == Err(ProductNotFound("Product not found!")) && s.products == old(s.products)
    ensures productId in old(s.products) ==>
      && r == Ok(UpdateExistingProduct(old(s.products[productId]), request, s.categories))
      && s.products == old(s.products)[productId := r.value]
  {
    if productId !in s.products {
      return Err(ProductNotFound("Product not found!"));
    }
    var updated := UpdateExistingProduct(s.products[productId], request, s.categories);
    s.products := s.products[productId := updated];
    r := Ok(updated);
  }

  /** `getProductById`: the stored product, or "Product not found". */
  method GetProductById(s: Store, id: nat) returns (r: Result<Product>)
    ensures id in s.products ==> r == Ok(s.products[id])
    ensures id !in s.products ==> r == Err(ResourceNotFound("Product not found"))
  {
    if id in s.products {
      r := Ok(s.products[id]);
    } else {
      r := Err(ResourceNotFound("Product not found"));
    }
  }

  /** `deleteProductById`: removes exactly that product, or throws
      "Product not found!" and changes nothing. */
  method DeleteProductById(s: Store, id: nat) returns (r: Outcome)
    requires s.Valid()
    modifies s
    ensures s.Valid()
    ensures s.CartsUnchanged() && s.UsersUnchanged() && s.orders == old(s.orders)
    ensures s.categories == old(s.categories) && s.nextCategoryId == old(s.nextCategoryId)
    ensures s.nextProductId == old(s.nextProductId)
    ensures id !in old(s.products) ==> r == Failed(ResourceNotFound("Product not found!")) && s.products == old(s.products)
    ensures id in old(s.products) ==> r == Done && s.products == old(s.products) - {id}
  {
    if id !in s.products {
      return Failed(ResourceNotFound("Product not found!"));
    }
    s.products := s.products - {id};
    r := Done;
  }

  /** `convertToDto`: the model mapper copies the product's fields and the
      product's images are attached. */
  function ConvertToDto(p: Product, images: seq<ImageDto>): (d: ProductDto)
    ensures (d.id, d.name, d.brand, d.price) == (p.id, p.name, p.brand, p.price)
    ensures (d.inventory, d.description, d.category) == (p.inventory, p.description, p.category)
    ensures d.images == images
  {
    ProductDto(p.id, p.name, p.brand, p.price, p.inventory, p.description, p.category, images)
  }

  /** `getConvertedProducts`: one DTO per product, in the same order, each
      carrying its product's fields and the images the image repository holds
      for that product id. */
  function GetConvertedProducts(products: seq<Product>, imagesOf: nat -> seq<ImageDto>): (r: seq<ProductDto>)
    ensures |r| == |products|
    ensures forall i :: 0 <= i < |products| ==>
      && r[i].id == products[i].id
      && (r[i].name, r[i].brand, r[i].price) == (products[i].name, products[i].brand, products[i].price)
      && (r[i].inventory, r[i].description, r[i].category)
         == (products[i].inventory, products[i].description, products[i].category)
      && r[i].images == imagesOf(products[i].id)
  {
    if products == [] then []
    else [ConvertToDto(products[0], imagesOf(products[0].id))] + GetConvertedProducts(products[1..], imagesOf)
  }
}
