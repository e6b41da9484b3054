/** Client scenarios over a fresh store: each seeds a reachable store the way
    the repository's service tests do and runs one or more service calls. */
module Scenarios {
  import opened Failures
  import opened Models
  import opened Identifiers
  import opened Store
  import opened Products
  import opened Baskets
  import opened Orders

  function Item(id: int32, name: string, description: string, price: real, imageUrl: string, quantity: int32): Product
  {
    Product(id, name, Some(description), price, Some(imageUrl), quantity, None, None)
  }

  /** Three customers with one basket each: Joe (1), Jane (2), Justine (3). */
  function SeedBaskets(): map<int32, Basket>
  {
    map[
      1 := Basket(1, "Joe", [Item(1, "Product1", "Description1", 10.0, "url1", 1), Item(2, "Product2", "Description2", 20.0, "url2", 2)], None, None),
      2 := Basket(2, "Jane", [Item(3, "Product3", "Description3", 10.0, "url1", 1), Item(4, "Product4", "Description4", 20.0, "url2", 2)], None, None),
      3 := Basket(3, "Justine", [Item(5, "Product5", "Description5", 10.0, "url1", 1), Item(6, "Product6", "Description6", 20.0, "url2", 2)], None, None)
    ]
  }

  /** Three customers with one order each: Joe (1), Jane (2), Justine (3). */
  function SeedOrders(): map<int32, Order>
  {
    map[1 := Order(1, "Joe", 1, 0), 2 := Order(2, "Jane", 2, 0), 3 := Order(3, "Justine", 3, 0)]
  }

  /** Justine's latest basket is 3, so her new basket gets id 4, and its total
      is 10 x 1 + 20 x 2. */
  method AddBasketForJustine() returns (r: Result<Option<Basket>>)
    ensures r.Ok? && r.value.Some?
    ensures r.value.value.basketId == 4 && r.value.value.customerName == "Justine"
    ensures |r.value.value.products| == 2 && r.value.value.products[0].name == "Product4"
    ensures r.value.value.TotalPrice() == 50.0
  {
    var context := new Context(map[], SeedBaskets(), map[], true);
    var services := new BasketServices(context);
    var basket := Basket(0, "Justine", [Item(4, "Product4", "Description4", 10.0, "url1", 1), Item(5, "Product5", "Description5", 20.0, "url2", 2)], None, None);
    assert BasketsOf(SeedBaskets(), "Justine") == {3};
    r := services.AddBasket(basket);
  }

  /** The query by customer name returns the name "Justine" once, for her one
      seeded basket. */
  method BasketsNamedJustine() returns (r: Result<seq<string>>)
    ensures r == Ok(["Justine"])
  {
    var context := new Context(map[], SeedBaskets(), map[], true);
    var services := new BasketServices(context);
    assert BasketsOf(SeedBaskets(), "Justine") == {3};
    r := services.GetUsersBasketsByName(0, "Justine");
    assert |r.value| == |{3 as int32}| == 1;
    assert r.value[0] == "Justine";
    assert r.value == ["Justine"];
  }

  /** Updating a basket returns the basket as it was, while the store now
      holds the request. */
  method UpdateBasketReturnsOldValue(request: Basket) returns (returned: Result<Option<Basket>>, stored: Result<Option<Basket>>)
    requires request.basketId == 1
    ensures returned == Ok(Some(SeedBaskets()[1]))
    ensures stored == Ok(Some(request))
  {
    var context := new Context(map[], SeedBaskets(), map[], true);
    var services := new BasketServices(context);
    returned := services.UpdateBasket(request);
    stored := services.GetBasketById(1);
  }

  /** Any product added to an empty table reads back under its own id. */
  method AddThenGetProduct(product: Product) returns (r: Result<Option<Product>>)
    ensures r == Ok(Some(product))
  {
    var context := new Context(map[], map[], map[], true);
    var services := new ProductServices(context);
    var added := services.AddProduct(product);
    r := services.GetProductById(product.id);
  }

  /** A deleted product is gone, and deleting it again fails with
      `ProductException` wrapping `ProductException`. */
  method DeleteThenGetProduct(product: Product) returns (r: Result<Option<Product>>, again: Result<bool>)
    ensures r == Ok(None)
    ensures again == Err(Wrap(ProductErr, Raised(ProductErr)))
  {
    var context := new Context(map[product.id := product], map[], map[], true);
    var services := new ProductServices(context);
    var deleted := services.DeleteProduct(product.id);
    r := services.GetProductById(product.id);
    again := services.DeleteProduct(product.id);
  }

  /** The query by customer finds Justine's one order. */
  method OrdersForJustine() returns (r: Result<seq<Order>>)
    ensures r == Ok([Order(3, "Justine", 3, 0)])
  {
    var context := new Context(map[], map[], SeedOrders(), true);
    var services := new OrderServices(context);
    assert OrdersOf(SeedOrders(), "Justine") == {3};
    r := services.GetOrdersByCustomer("Justine");
    assert |r.value| == |{3 as int32}| == 1;
    var k :| k in SeedOrders() && SeedOrders()[k] == r.value[0];
    assert k in OrdersOf(SeedOrders(), "Justine");
    assert r.value == [Order(3, "Justine", 3, 0)];
  }

  /** As written, adding Justine's order fails on the seeded store: the order
      is never saved, so nothing is stored at the allocated id 4. */
  method AddOrderForJustine() returns (r: Result<Order>)
    ensures r == Err(Wrap(OrderErr, Raised(OrderErr)))
  {
    var context := new Context(map[], map[], SeedOrders(), true);
    var services := new OrderServices(context);
    assert OrdersOf(SeedOrders(), "Justine") == {3};
    r := services.AddOrder(Order(0, "Justine", 4, 0));
  }

  /** Corrected, the same call stores and returns order 4. */
  method AddOrderCorrectedForJustine() returns (r: Result<Option<Order>>)
    ensures r == Ok(Some(Order(4, "Justine", 4, 0)))
  {
    var context := new Context(map[], map[], SeedOrders(), true);
    var services := new OrderServices(context);
    assert OrdersOf(SeedOrders(), "Justine") == {3};
    r := services.AddOrderCorrected(Order(0, "Justine", 4, 0));
  }

  /** As written, an update of order 1 to another basket is lost: the store
      still holds the original order afterwards. */
  method UpdateOrderIsLost() returns (stored: Result<Option<Order>>)
    ensures stored == Ok(Some(Order(1, "Joe", 1, 0)))
  {
    var context := new Context(map[], map[], SeedOrders(), true);
    var services := new OrderServices(context);
    var updated := services.UpdateOrder(Order(1, "Joe", 4, 0));
    stored := services.GetOrderById(1);
  }

  /** Corrected, the update is applied. */
  method UpdateOrderCorrectedIsApplied() returns (stored: Result<Option<Order>>)
    ensures stored == Ok(Some(Order(1, "Joe", 4, 0)))
  {
    var context := new Context(map[], map[], SeedOrders(), true);
    var services := new OrderServices(context);
    var updated := services.UpdateOrderCorrected(Order(1, "Joe", 4, 0));
    stored := services.GetOrderById(1);
  }

  /** With the store unreachable every service surfaces its own exception
      family around the store fault, except the basket name query, which has
      no try block. */
  method StoreUnreachable() returns (product: Result<Option<Product>>, basket: Result<Option<Basket>>, order: Result<Order>, names: Result<seq<string>>)
    ensures product == Err(Wrap(ProductErr, StoreFault))
    ensures basket == Err(Wrap(BasketErr, Wrap(BasketErr, StoreFault)))
    ensures order == Err(Wrap(OrderErr, Wrap(OrderErr, StoreFault)))
    ensures names == Err(StoreFault)
  {
    var context := new Context(map[], map[], map[], false);
    var productServices := new ProductServices(context);
    var basketServices := new BasketServices(context);
    var orderServices := new OrderServices(context);
    product := productServices.GetProductById(1);
    basket := basketServices.AddBasket(Basket(0, "Justine", [], None, None));
    order := orderServices.AddOrder(Order(0, "Justine", 4, 0));
    names := basketServices.GetUsersBasketsByName(0, "Justine");
  }
}
