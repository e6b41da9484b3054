/** The order repository: lookup, the add that allocates a per-customer id,
    update, delete, and the query by customer name. */
module Orders {
  import opened Failures
  import opened Models
  import opened Identifiers
  import opened Store

  /** The id an add allocates for a customer: the customer's latest order id
      plus one, or 1 for a customer without orders. */
  ghost function AllocatedOrderId(orders: map<int32, Order>, customer: string): int32
  {
    NextId(LatestKey(OrdersOf(orders, customer)))
  }

  /** Whatever AddOrder returns on success is the order already stored at the
      allocated id, and that order belongs to another customer: the id is past
      every id of the customer's own orders, unless the latest of them is
      Int32.MaxValue and the allocation wraps around. */
  lemma AddOrderReturnsAnotherCustomersOrder(orders: map<int32, Order>, customer: string)
    requires LatestKey(OrdersOf(orders, customer)) != Some(MaxInt32)
    ensures AllocatedOrderId(orders, customer) in orders ==>
      orders[AllocatedOrderId(orders, customer)].customerName != customer
  {
    var scope := OrdersOf(orders, customer);
    var id := AllocatedOrderId(orders, customer);
    assert id !in scope;
  }

  class OrderServices {
    const context: Context

    constructor (context: Context)
      ensures this.context == context
    {
      this.context := context;
    }

    /** The stored order, or null when there is none. */
    method GetOrderById(orderId: int32) returns (r: Result<Option<Order>>)
      ensures r.Ok? <==> context.online
      ensures r.Err? ==> r.error == Wrap(OrderErr, StoreFault)
      ensures r.Ok? ==> (r.value.Some? <==> orderId in context.orders)
      ensures r.Ok? && r.value.Some? ==> r.value.value == context.orders[orderId]
    {
      var order := context.LoadOrder(orderId);
      if order.Err? {
        return Err(Wrap(OrderErr, order.error));
      }
      return order;
    }

    /** As written: allocates the customer's next id and gives it to the order,
        builds a put request that is never sent, and returns whatever is
        already stored at that id, failing when nothing is. It writes nothing
        (the method has no modifies clause). */
    method AddOrder(order: Order) returns (r: Result<Order>)
      requires context.Valid()
      ensures !context.online ==> r == Err(Wrap(OrderErr, Wrap(OrderErr, StoreFault)))
      ensures context.online ==>
        var id := AllocatedOrderId(context.orders, order.customerName);
        && (r.Ok? <==> id in context.orders)
        && (r.Ok? ==> r.value == context.orders[id])
        && (r.Err? ==> r.error == Wrap(OrderErr, Raised(OrderErr)))
    {
      var latestOrderId := GetNextId(order.customerName);
      if latestOrderId.Err? {
        return Err(Wrap(OrderErr, latestOrderId.error));
      }
      var withId := order.(orderId := latestOrderId.value);
      var response := context.LoadOrder(withId.orderId);
      assert response.Ok?;
      if response.value.None? {
        return Err(Wrap(OrderErr, Raised(OrderErr)));
      }
      return Ok(response.value.value);
    }

    /** Corrected: what AddOrder evidently intends, saving the order under its
        allocated id before reading it back. */
    method AddOrderCorrected(order: Order) returns (r: Result<Option<Order>>)
      requires context.Valid()
      modifies context
      ensures context.Valid() && context.online == old(context.online)
      ensures context.products == old(context.products) && context.baskets == old(context.baskets)
      ensures !context.online ==>
        r == Err(Wrap(OrderErr, Wrap(OrderErr, StoreFault))) &&
        context.orders == old(context.orders) && context.log == old(context.log)
      ensures context.online ==>
        var saved := order.(orderId := AllocatedOrderId(old(context.orders), order.customerName));
        && context.orders == old(context.orders)[saved.orderId := saved]
        && context.log == old(context.log) + [PutOrder(saved)]
        && r == Ok(Some(saved))
    {
      var latestOrderId := GetNextId(order.customerName);
      if latestOrderId.Err? {
        return Err(Wrap(OrderErr, latestOrderId.error));
      }
      var withId := order.(orderId := latestOrderId.value);
      var saved := context.SaveOrder(withId);
      assert saved.Pass?;
      var response := context.LoadOrder(withId.orderId);
      return response;
    }

    /** As written: loads the order at the request's id and saves the loaded
        record back, so the request is never applied and the table keeps its
        contents; returns the loaded record. Its catch block raises a
        ProductErr. */
    method UpdateOrder(orderRequest: Order) returns (r: Result<Option<Order>>)
      requires context.Valid()
      modifies context
      ensures context.Valid() && context.online == old(context.online)
      ensures context.products == old(context.products) && context.baskets == old(context.baskets)
      ensures context.orders == old(context.orders)
      ensures !context.online ==>
        r == Err(Wrap(ProductErr, StoreFault)) && context.log == old(context.log)
      ensures context.online && orderRequest.orderId !in old(context.orders) ==>
        r == Ok(None) && context.log == old(context.log)
      ensures context.online && orderRequest.orderId in old(context.orders) ==>
        r == Ok(Some(old(context.orders)[orderRequest.orderId])) &&
        context.log == old(context.log) + [PutOrder(old(context.orders)[orderRequest.orderId])]
    {
      var order := context.LoadOrder(orderRequest.orderId);
      if order.Err? {
        return Err(Wrap(ProductErr, order.error));
      }
      if order.value.None? {
        return Ok(None);
      }
      var saved := context.SaveOrder(order.value.value);
      assert saved.Pass?;
      return order;
    }

    /** Corrected: what UpdateOrder evidently intends, saving the request. The
        catch block still raises a ProductErr, so only what is saved differs. */
    method UpdateOrderCorrected(orderRequest: Order) returns (r: Result<Option<Order>>)
      requires context.Valid()
      modifies context
      ensures context.Valid() && context.online == old(context.online)
      ensures context.products == old(context.products) && context.baskets == old(context.baskets)
      ensures !context.online ==>
        r == Err(Wrap(ProductErr, StoreFault)) &&
        context.orders == old(context.orders) && context.log == old(context.log)
      ensures context.online && orderRequest.orderId !in old(context.orders) ==>
        r == Ok(None) && context.orders == old(context.orders) && context.log == old(context.log)
      ensures context.online && orderRequest.orderId in old(context.orders) ==>
        r == Ok(Some(old(context.orders)[orderRequest.orderId])) &&
        context.orders == old(context.orders)[orderRequest.orderId := orderRequest] &&
        context.log == old(context.log) + [PutOrder(orderRequest)]
    {
      var order := context.LoadOrder(orderRequest.orderId);
      if order.Err? {
        return Err(Wrap(ProductErr, order.error));
      }
      if order.value.None? {
        return Ok(None);
      }
      var saved := context.SaveOrder(orderRequest);
      assert saved.Pass?;
      return order;
    }

    /** Deletes the order with this id after checking that it exists. */
    method DeleteOrder(orderId: int32) returns (r: Result<bool>)
      requires context.Valid()
      modifies context
      ensures context.Valid() && context.online == old(context.online)
      ensures context.products == old(context.products) && context.baskets == old(context.baskets)
      ensures !context.online ==>
        r == Err(Wrap(OrderErr, StoreFault)) &&
        context.orders == old(context.orders) && context.log == old(context.log)
      ensures context.online && orderId !in old(context.orders) ==>
        r == Err(Wrap(OrderErr, Raised(OrderErr))) &&
        context.orders == old(context.orders) && context.log == old(context.log)
      ensures context.online && orderId in old(context.orders) ==>
        r == Ok(true) &&
        context.orders == old(context.orders) - {orderId} &&
        context.log == old(context.log) + [RemoveOrder(old(context.orders)[orderId])]
    {
      var loaded := context.LoadOrder(orderId);
      if loaded.Err? {
        return Err(Wrap(OrderErr, loaded.error));
      }
      if loaded.value.None? {
        return Err(Wrap(OrderErr, Raised(OrderErr)));
      }
      var order := loaded.value.value;
      var deleted := context.DeleteOrder(order);
      assert deleted.Pass?;
      return Ok(true);
    }

    /** Exactly the stored orders of this customer, once each. */
    method GetOrdersByCustomer(customerName: string) returns (r: Result<seq<Order>>)
      ensures r.Ok? <==> context.online
      ensures r.Err? ==> r.error == Wrap(OrderErr, StoreFault)
      ensures r.Ok? ==> |r.value| == |OrdersOf(context.orders, customerName)|
      ensures r.Ok? ==> forall o :: o in r.value <==> o in context.orders.Values && o.customerName == customerName
    {
      var orders, keys := context.QueryOrders(customerName);
      if orders.Err? {
        return Err(Wrap(OrderErr, orders.error));
      }
      ghost var scope := OrdersOf(context.orders, customerName);
      ListsScope(context.orders, scope, keys, orders.value);
      DistinctCardinality(keys, scope);
      forall o ensures o in orders.value <==> o in context.orders.Values && o.customerName == customerName {
        if o in context.orders.Values && o.customerName == customerName {
          var k :| k in context.orders && context.orders[k] == o;
          assert k in scope;
        }
      }
      return orders;
    }

    /** The customer's latest order id plus one, or 1 when the customer has no
        order. */
    method GetNextId(customerName: string) returns (r: Result<int32>)
      requires context.Valid()
      ensures r.Ok? <==> context.online
      ensures r.Err? ==> r.error == Wrap(OrderErr, StoreFault)
      ensures r.Ok? ==> r.value == AllocatedOrderId(context.orders, customerName)
    {
      var orders := context.QueryLatestOrder(customerName);
      if orders.Err? {
        return Err(Wrap(OrderErr, orders.error));
      }
      var latestOrderId := match orders.value case None => None case Some(o) => Some(o.orderId);
      return Ok(NextId(latestOrderId));
    }
  }
}
