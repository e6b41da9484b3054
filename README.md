# Justine service layer in Dafny

Justine is a small shop backend. Products, customer baskets and orders are
kept in three key-value tables. Three repository services wrap them:
ProductServices, BasketServices and OrderServices. This project models
those services and the derived basket total, and proves what each call
returns, what it writes and which exception it raises.

- **The store** (`Store.Context`) is one map per table, keyed by the
  record's id. A flag `online` says whether the store client answers; when
  it is false, every store call throws. The ghost `log` records every write
  the services issue, so "writes nothing" and "writes exactly this" can be
  stated. Point loads, upserts, deletes, scans and queries on the
  customer-name index are methods of the context. A scan or query lists
  every matching record exactly once.
- **Exceptions** (`Failures`) are chains. A domain exception is
  `DomainError(family, inner)`, where `family` is ProductException,
  BasketException or OrderException and `inner` is the exception it wraps.
  `Raised(f)` is one built from a message alone. `Wrap(f, e)` is one built
  by a catch block around `e`. `StoreFault` stands for any exception thrown
  by the store client.
- **Identifier allocation** (`Identifiers`, and `GetNextId` in each
  allocating service): the latest id in the customer's scope plus one, or
  1 when the scope is empty. The addition is C#'s unchecked `int` addition,
  which wraps at Int32.MaxValue.
- **Services** (`Products`, `Baskets`, `Orders`) are classes over a shared
  context. Each method mirrors its C# counterpart branch by branch. The
  `Async` suffix is dropped from method names. UpdateProduct returns the
  request (the new value), unlike UpdateBasket, which returns the stored
  record from before the update.
- **Scenarios** replay the repository's service tests against a seeded
  store.

## Model

| member | source | states |
|---|---|---|
| Models.AccumulateIsSum | Justine.Common/Models/Basket.cs:19 | The running left fold that LINQ's `Sum` performs equals its starting value plus the sum of price times quantity over the line items. |
| Models.Basket.TotalPrice | Justine.Common/Models/Basket.cs:19 | The total is the sum of price times quantity over the line items (LINQ's left fold from zero); a basket without line items totals zero. |
| Models.SumConcat | Justine.Common/Models/Basket.cs:19 | The line-item sum is additive over concatenation. |
| Models.TotalPriceAppend | Justine.Common/Models/Basket.cs:19 | Appending a line item raises the total by exactly that item's price times quantity. |
| Identifiers.Max | Justine.Common/Services/BasketServices.cs:203-212 | The latest id of a non-empty scope is in the scope and not below any id in it. |
| Identifiers.LatestKey | Justine.Common/Services/OrderServices.cs:164-173 | There is no latest id exactly when the scope is empty; otherwise the latest id belongs to the scope and bounds it from above. |
| Identifiers.Increment | Justine.Common/Services/OrderServices.cs:175 | `n + 1` on a C# `int`: congruent to n + 1 modulo 2^32, and exactly n + 1 below Int32.MaxValue. |
| Identifiers.NextId | Justine.Common/Services/BasketServices.cs:212-214 | `(latest?.Id ?? 0) + 1`: 1 without a latest record, otherwise congruent to the latest id plus one modulo 2^32. |
| Identifiers.AllocatedIdExceedsScope | Justine.Common/Services/OrderServices.cs:172-175 | An empty scope allocates 1; otherwise the allocation is the latest id plus one and exceeds every id in the scope, except that latest = Int32.MaxValue wraps to Int32.MinValue. |
| Store.DistinctCardinality | Justine.Common/Services/OrderServices.cs:133-134 | A listing of distinct ids that covers exactly a set of ids has the set's size. |
| Store.ListsAllValues | Justine.Common/Services/ProductServices.cs:67 | A full-table listing holds exactly the stored records. |
| Store.ListsScope | Justine.Common/Services/OrderServices.cs:133-134 | A listing of some ids holds exactly the records stored under them. |
| Store.Select | Justine.Common/Services/OrderServices.cs:133-134 | Reading the records with the wanted ids lists each one exactly once, with its own id. |
| Store.Latest | Justine.Common/Services/OrderServices.cs:164-170 | The latest-first, limit-one query returns nothing exactly when no record matches, and otherwise the record with the greatest matching id. |
| Store.Context.QueryBaskets | Justine.Common/Services/BasketServices.cs:160-164 | The basket query lists exactly the baskets whose customer name satisfies the condition, or throws when the store is unreachable. |
| Store.Context.QueryLatestBasket | Justine.Common/Services/BasketServices.cs:192-209 | The customer-name index query for baskets, latest first and limited to one, returns the customer's latest basket. |
| Store.Context.QueryOrders | Justine.Common/Services/OrderServices.cs:119-134 | The customer-name index query for orders lists exactly the customer's orders. |
| Store.Context.QueryLatestOrder | Justine.Common/Services/OrderServices.cs:153-170 | The latest-first, limit-one query for orders returns the customer's latest order. |
| Products.ProductServices.AddProduct | Justine.Common/Services/ProductServices.cs:23-41 | Upserts the product under its own id and returns it as read back. On a store failure it throws a ProductException without an inner exception and writes nothing. |
| Products.ProductServices.DeleteProduct | Justine.Common/Services/ProductServices.cs:43-60 | Removes exactly that id and returns true. A missing id throws a ProductException wrapping the not-found ProductException, and nothing is written. |
| Products.ProductServices.GetAllProducts | Justine.Common/Services/ProductServices.cs:63-77 | Returns every stored product once each (the count equals the table size, and membership equals the table's values), or a ProductException wrapping the store fault. |
| Products.ProductServices.GetProductById | Justine.Common/Services/ProductServices.cs:79-92 | Returns the stored product, or null exactly when the id is absent; a store failure becomes a wrapped ProductException. |
| Products.ProductServices.UpdateProduct | Justine.Common/Services/ProductServices.cs:94-110 | For an existing id, replaces the record with the request and returns the request (the new value). A missing id returns null and writes nothing. |
| Baskets.BasketServices.GetBasketById | Justine.Common/Services/BasketServices.cs:18-31 | Returns the stored basket, or null exactly when the id is absent; a store failure becomes a wrapped BasketException. |
| Baskets.BasketServices.GetAllBaskets | Justine.Common/Services/BasketServices.cs:33-46 | Returns every stored basket once each, or a BasketException wrapping the store fault. |
| Baskets.BasketServices.AddBasket | Justine.Common/Services/BasketServices.cs:48-121 | Saves the basket under the customer's next id, writing nothing else, and returns it. A line item whose stored product has a null description or image URL makes it throw (a BasketException around a NullReferenceException) before anything is saved. A failure of the id query is wrapped twice. |
| Baskets.BasketServices.LookUpLineItems | Justine.Common/Services/BasketServices.cs:58-85 | The product lookup loop throws exactly when some line item names a stored product with null text; otherwise it returns the stored products that the line items name. |
| Baskets.BasketServices.UpdateBasket | Justine.Common/Services/BasketServices.cs:123-137 | For an existing id, replaces the record with the request and returns the record as it was before (the old value). A missing id returns null and writes nothing. |
| Baskets.BasketServices.DeleteBasket | Justine.Common/Services/BasketServices.cs:139-156 | Removes exactly that id and returns true. A missing id throws a BasketException wrapping the not-found BasketException. |
| Baskets.BasketServices.GetUsersBasketsByName | Justine.Common/Services/BasketServices.cs:158-182 | Returns the user name once for each basket whose customer name is exactly that name. A store fault passes through unwrapped. |
| Baskets.CollectNames | Justine.Common/Services/BasketServices.cs:173-179 | The filtering loop emits the name once per listed basket with exactly that customer name, and nothing else. |
| Baskets.NamedWithinPrefixed | Justine.Common/Services/BasketServices.cs:160-164 | A prefix query on a name selects every basket with exactly that name. |
| Baskets.PickedMembers | Justine.Common/Services/BasketServices.cs:173-179 | The ids picked from a prefix of the listing are exactly the ids of its baskets with that customer name. |
| Baskets.NotPickedBefore | Justine.Common/Services/BasketServices.cs:173-179 | Over distinct ids, a basket's id is not among the ids picked before its position. |
| Baskets.MatchingNames | Justine.Common/Services/BasketServices.cs:173-179 | Every name the filter emits is the queried customer name. |
| Baskets.PickedStep | Justine.Common/Services/BasketServices.cs:173-179 | Over distinct ids, one more listed basket adds one picked id exactly when it has that customer name. |
| Baskets.MatchingCount | Justine.Common/Services/BasketServices.cs:173-179 | Over distinct ids, the filter emits as many names as it picks ids. |
| Baskets.CountedIsNamed | Justine.Common/Services/BasketServices.cs:173-179 | The exact-name filter over the prefix query's result keeps precisely the customer's baskets. |
| Baskets.BasketServices.GetNextId | Justine.Common/Services/BasketServices.cs:184-220 | Returns the customer's latest basket id plus one, or 1 for a customer without baskets; a store failure becomes a wrapped BasketException. |
| Orders.OrderServices.GetOrderById | Justine.Common/Services/OrderServices.cs:19-32 | Returns the stored order, or null exactly when the id is absent; a store failure becomes a wrapped OrderException. |
| Orders.OrderServices.AddOrder | Justine.Common/Services/OrderServices.cs:34-72 | Writes nothing. It returns the order that is already stored at the customer's next id, and throws an OrderException wrapping the not-found OrderException when there is none. |
| Orders.AddOrderReturnsAnotherCustomersOrder | Justine.Common/Services/OrderServices.cs:39-64 | Unless the id wraps around, any order AddOrder returns belongs to a different customer. |
| Orders.OrderServices.AddOrderCorrected | Justine.Common/Services/OrderServices.cs:34-72 | The intended add: saves the order under the customer's next id and returns it. |
| Orders.OrderServices.UpdateOrder | Justine.Common/Services/OrderServices.cs:74-89 | Saves back the loaded record, so the Orders table is unchanged, and returns that stored record. Its catch block raises a ProductException. |
| Orders.OrderServices.UpdateOrderCorrected | Justine.Common/Services/OrderServices.cs:74-89 | The intended update: replaces an existing order with the request. The catch block still raises a ProductException, as written. |
| Orders.OrderServices.DeleteOrder | Justine.Common/Services/OrderServices.cs:91-108 | Removes exactly that id and returns true. A missing id throws an OrderException wrapping the not-found OrderException. |
| Orders.OrderServices.GetOrdersByCustomer | Justine.Common/Services/OrderServices.cs:110-143 | Returns each of the customer's orders exactly once and no other order; a store failure becomes a wrapped OrderException. |
| Orders.OrderServices.GetNextId | Justine.Common/Services/OrderServices.cs:145-181 | Returns the customer's latest order id plus one, or 1 for a customer without orders. |
| Scenarios.AddBasketForJustine | Justine.Common.Tests/ServicesTests/BasketServicesTests.cs:143-184 | On the three-basket seed, Justine's new basket gets id 4 and totals 10 x 1 + 20 x 2 = 50. |
| Scenarios.BasketsNamedJustine | Justine.Common.Tests/ServicesTests/BasketServicesTests.cs:259-272 | Replays the test's expectation of one result for "Justine" (the test calls `GetUsersBasketsByNameAsync`, which no service implements) against the implemented `GetUsersBasketsByName(0, "Justine")`: on the three-basket seed it returns the name "Justine" once. |
| Scenarios.UpdateBasketReturnsOldValue | Justine.Common/Services/BasketServices.cs:123-137 | An update returns the pre-update basket while the store now holds the request. |
| Scenarios.AddThenGetProduct | Justine.Common/Services/ProductServices.cs:23-31 | Any product added to an empty table reads back unchanged under its own id. |
| Scenarios.DeleteThenGetProduct | Justine.Common/Services/ProductServices.cs:43-60 | A deleted product reads back as null, and a second delete throws a ProductException wrapping a ProductException. |
| Scenarios.OrdersForJustine | Justine.Common.Tests/ServicesTests/OrderServicesTests.cs:233-247 | The customer query on the three-order seed returns exactly Justine's order. |
| Scenarios.AddOrderForJustine | Justine.Common/Services/OrderServices.cs:34-72 | On the three-order seed, adding Justine's order throws, because nothing is stored at the allocated id 4. |
| Scenarios.AddOrderCorrectedForJustine | Justine.Common/Services/OrderServices.cs:34-72 | With the corrected add, the same call stores and returns order 4. |
| Scenarios.UpdateOrderIsLost | Justine.Common/Services/OrderServices.cs:74-89 | Updating order 1 to another basket leaves the stored order unchanged. |
| Scenarios.UpdateOrderCorrectedIsApplied | Justine.Common/Services/OrderServices.cs:74-89 | With the corrected update, the stored order is the request. |
| Scenarios.StoreUnreachable | Justine.Common/Services/BasketServices.cs:48-121 | With the store unreachable, each service raises its own family around the store fault. The id query inside the adds is wrapped twice. The basket name query, which has no try block, lets the fault through bare. |

## Left out

- Controllers, Lambda functions, start-up code and the web client: they only forward to the services.
- `CreateProductTableAsync`: table creation and a polling loop on the table status, outside the repository services.
- The store client's wire format, composite hash/range keys, and unused request dictionaries (`PutItemRequest`, `AttributeValue` lists) that are built and never sent: the tables are keyed by id alone. So an allocated id that another customer already uses overwrites that customer's record.
- Timestamps (`CreatedAt`, `UpdatedAt`, `DateTime.UtcNow` in the unsent order request): a clock is not modelled. `OrderDate` is an opaque number.
- Exception message texts; only the exception's family and inner exception are modelled.
- `async`/`await` and concurrency. In particular, two concurrent allocations can read the same latest id, and that race is not modelled: each call runs to completion alone.
- Partial store failure: the store is reachable for a whole call or for none of it, so a fault between the first and a later store call of one operation is not modelled.
- `GetUsersBasketsByNameAsync` and `GetAllOrdersAsync` are called by the controllers and tests but implemented by no service, so there is nothing to model.
- The mutation a caller can see (AddBasket and AddOrder assign the new id to the object passed in): records are values here.
- Null `Name`, null `Products` list and `decimal` overflow: names and line-item lists are always present, and prices are exact reals.
- Baskets.BasketServices.GetUsersBasketsByName: the store query's first argument is a hash-key value, and here it is taken to be a prefix condition on the customer name. `userId` is ignored, as in the source.
- Identifiers.LatestKey: "latest first" on the customer-name index is taken to mean the greatest id, since that is the order in which ids are allocated. The index declares no sort key in this repository.

## Findings

| source | as written | input that shows it | evidently intended | confidence | as-written member | corrected member |
|---|---|---|---|---|---|---|
| Justine.Common/Services/OrderServices.cs:34-72 | AddOrderAsync builds a put request and never sends it, then loads the allocated id and throws when nothing is there. | The three-order seed (Joe 1, Jane 2, Justine 3) and a new order for Justine: id 4 is allocated, nothing is saved, and the call throws. | Save the order under the allocated id and return it. | not executed | Scenarios.AddOrderForJustine | Orders.OrderServices.AddOrderCorrected |
| Justine.Common/Services/OrderServices.cs:74-89 | UpdateOrderAsync saves the record it loaded instead of the request, so no update is ever applied. | The same seed and a request moving order 1 to basket 4: afterwards order 1 still has basket 1. | Save the request (the catch block's ProductException is kept). | not executed | Scenarios.UpdateOrderIsLost | Orders.OrderServices.UpdateOrderCorrected |
