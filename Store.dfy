/** The key-value store the services talk to: one table per entity, each a
    map from the record's hash-key id to the record. A store call either does
    what the table semantics say or, when the store is unreachable, throws. */
module Store {
  import opened Failures
  import opened Models
  import opened Identifiers

  /** A key condition on a string attribute, as in a store query. */
  datatype Condition = Equals(value: string) | BeginsWith(prefix: string)

  predicate Satisfies(s: string, cond: Condition)
  {
    match cond
    case Equals(v) => s == v
    case BeginsWith(p) => |p| <= |s| && s[..|p|] == p
  }

  function BasketCustomer(b: Basket): string { b.customerName }

  function OrderCustomer(o: Order): string { o.customerName }

  /** The ids of the records whose attribute satisfies the condition: what a
      query on a secondary index over that attribute selects. */
  function Where<T>(rows: map<int32, T>, attr: T -> string, cond: Condition): set<int32>
  {
    set k | k in rows && Satisfies(attr(rows[k]), cond)
  }

  /** The ids of the baskets, or orders, of one customer. */
  function BasketsOf(baskets: map<int32, Basket>, customer: string): set<int32>
  {
    Where(baskets, BasketCustomer, Equals(customer))
  }

  function OrdersOf(orders: map<int32, Order>, customer: string): set<int32>
  {
    Where(orders, OrderCustomer, Equals(customer))
  }

  /** A point lookup: the record or null. */
  function Get<T>(rows: map<int32, T>, id: int32): Option<T>
  {
    if id in rows then Some(rows[id]) else None
  }

  predicate Distinct(s: seq<int32>)
  {
    forall i, j :: 0 <= i < j < |s| ==> s[i] != s[j]
  }

  /** `items` lists the records with the `wanted` ids, each exactly once, in
      the order of `keys`; the order itself is the store's. */
  ghost predicate Lists<T>(rows: map<int32, T>, wanted: set<int32>, keys: seq<int32>, items: seq<T>)
  {
    && Distinct(keys)
    && (forall k :: k in keys <==> k in wanted)
    && |items| == |keys|
    && (forall i :: 0 <= i < |keys| ==> keys[i] in rows && items[i] == rows[keys[i]])
  }

  /** A list without repetitions is as long as the set of its elements. */
  lemma {:induction false} DistinctCardinality(keys: seq<int32>, wanted: set<int32>)
    requires Distinct(keys)
    requires forall k :: k in keys <==> k in wanted
    ensures |keys| == |wanted|
    decreases |keys|
  {
    if keys == [] {
      assert wanted == {};
    } else {
      var last := keys[|keys| - 1];
      var init := keys[..|keys| - 1];
      assert last in wanted;
      forall k ensures k in init <==> k in wanted - {last} {
        if k in init {
          var i :| 0 <= i < |init| && init[i] == k;
          assert keys[i] == k && i < |keys| - 1;
        }
        if k in wanted - {last} {
          assert k in keys;
          var i :| 0 <= i < |keys| && keys[i] == k;
          assert i != |keys| - 1;
          assert init[i] == k;
        }
      }
      DistinctCardinality(init, wanted - {last});
    }
  }

  /** A listing of a whole table holds exactly the table's records. */
  lemma ListsAllValues<T>(rows: map<int32, T>, keys: seq<int32>, items: seq<T>)
    requires Lists(rows, rows.Keys, keys, items)
    ensures forall x :: x in items <==> x in rows.Values
  {
    forall x ensures x in items <==> x in rows.Values {
      if x in items {
        var i :| 0 <= i < |items| && items[i] == x;
        assert keys[i] in rows;
      }
      if x in rows.Values {
        var k :| k in rows && rows[k] == x;
        assert k in keys;
        var i :| 0 <= i < |keys| && keys[i] == k;
        assert items[i] == x;
      }
    }
  }

  /** A listing of some ids holds exactly the records stored under them. */
  lemma ListsScope<T>(rows: map<int32, T>, wanted: set<int32>, keys: seq<int32>, items: seq<T>)
    requires wanted <= rows.Keys
    requires Lists(rows, wanted, keys, items)
    ensures forall x :: x in items <==> exists k :: k in wanted && rows[k] == x
  {
    forall x ensures x in items <==> exists k :: k in wanted && rows[k] == x {
      if x in items {
        var i :| 0 <= i < |items| && items[i] == x;
        assert keys[i] in wanted;
      }
      if exists k :: k in wanted && rows[k] == x {
        var k :| k in wanted && rows[k] == x;
        assert k in keys;
        var i :| 0 <= i < |keys| && keys[i] == k;
        assert items[i] == x;
      }
    }
  }

  /** Reads the records with the wanted ids, in an order the store chooses. */
  method Select<T>(rows: map<int32, T>, wanted: set<int32>) returns (keys: seq<int32>, items: seq<T>)
    requires wanted <= rows.Keys
    ensures Lists(rows, wanted, keys, items)
    ensures |items| == |wanted|
  {
    keys, items := [], [];
    var todo := wanted;
    while todo != {}
      invariant todo <= wanted
      invariant Distinct(keys)
      invariant forall k :: k in keys <==> k in wanted && k !in todo
      invariant |items| == |keys|
      invariant forall i :: 0 <= i < |keys| ==> keys[i] in rows && items[i] == rows[keys[i]]
      decreases todo
    {
      var k :| k in todo;
      keys, items := keys + [k], items + [rows[k]];
      todo := todo - {k};
    }
    DistinctCardinality(keys, wanted);
  }

  /** The latest record of a scope: the one with the greatest id. */
  ghost function LatestRecord<T>(rows: map<int32, T>, scope: set<int32>): Option<T>
    requires scope <= rows.Keys
  {
    match LatestKey(scope)
    case None => None
    case Some(k) => Some(rows[k])
  }

  /** A query sorted by id, latest first, limited to one result. */
  method Latest<T>(rows: map<int32, T>, wanted: set<int32>) returns (r: Option<T>)
    requires wanted <= rows.Keys
    ensures r.None? <==> wanted == {}
    ensures r.Some? ==> r.value == rows[Max(wanted)]
  {
    var todo := wanted;
    var found := false;
    var best: int32 := 0;
    while todo != {}
      invariant todo <= wanted
      invariant found <==> wanted - todo != {}
      invariant found ==> best in wanted - todo
      invariant found ==> forall k :: k in wanted - todo ==> k <= best
      decreases todo
    {
      var k :| k in todo;
      if !found || best < k {
        best := k;
      }
      found := true;
      assert wanted - (todo - {k}) == (wanted - todo) + {k};
      todo := todo - {k};
    }
    assert wanted - todo == wanted;
    if found {
      assert best == Max(wanted);
      r := Some(rows[best]);
    } else {
      r := None;
    }
  }

  /** A write the services issued, in the order issued. */
  datatype Write =
    | PutProduct(product: Product)
    | RemoveProduct(product: Product)
    | PutBasket(basket: Basket)
    | RemoveBasket(basket: Basket)
    | PutOrder(order: Order)
    | RemoveOrder(order: Order)

  /** The store client shared by the three services. */
  class Context {
    var products: map<int32, Product>
    var baskets: map<int32, Basket>
    var orders: map<int32, Order>
    /** False when the store is unreachable: every call then throws. */
    var online: bool
    /** Every save and delete that reached the store. */
    ghost var log: seq<Write>

    /** Every record is stored under its own hash key. */
    ghost predicate Valid()
      reads this
    {
      && (forall k :: k in products ==> products[k].id == k)
      && (forall k :: k in baskets ==> baskets[k].basketId == k)
      && (forall k :: k in orders ==> orders[k].orderId == k)
    }

    constructor (products: map<int32, Product>, baskets: map<int32, Basket>, orders: map<int32, Order>, online: bool)
      requires forall k :: k in products ==> products[k].id == k
      requires forall k :: k in baskets ==> baskets[k].basketId == k
      requires forall k :: k in orders ==> orders[k].orderId == k
      ensures Valid()
      ensures this.products == products && this.baskets == baskets && this.orders == orders
      ensures this.online == online && log == []
    {
      this.products, this.baskets, this.orders := products, baskets, orders;
      this.online := online;
      log := [];
    }

    // Products table

    method LoadProduct(id: int32) returns (r: Result<Option<Product>>)
      ensures r == if online then Ok(Get(products, id)) else Err(StoreFault)
    {
      if !online { return Err(StoreFault); }
      return Ok(Get(products, id));
    }

    method SaveProduct(p: Product) returns (o: Outcome)
      modifies this
      ensures baskets == old(baskets) && orders == old(orders) && online == old(online)
      ensures o == if online then Pass else Fail(StoreFault)
      ensures products == if online then old(products)[p.id := p] else old(products)
      ensures log == if online then old(log) + [PutProduct(p)] else old(log)
      ensures old(Valid()) ==> Valid()
    {
      if !online { return Fail(StoreFault); }
      products := products[p.id := p];
      log := log + [PutProduct(p)];
      return Pass;
    }

    method DeleteProduct(p: Product) returns (o: Outcome)
      modifies this
      ensures baskets == old(baskets) && orders == old(orders) && online == old(online)
      ensures o == if online then Pass else Fail(StoreFault)
      ensures products == if online then old(products) - {p.id} else old(products)
      ensures log == if online then old(log) + [RemoveProduct(p)] else old(log)
      ensures old(Valid()) ==> Valid()
    {
      if !online { return Fail(StoreFault); }
      products := products - {p.id};
      log := log + [RemoveProduct(p)];
      return Pass;
    }

    method ScanProducts() returns (r: Result<seq<Product>>, keys: seq<int32>)
      ensures r.Ok? <==> online
      ensures r.Err? ==> r.error == StoreFault
      ensures r.Ok? ==> Lists(products, products.Keys, keys, r.value) && |r.value| == |products|
    {
      if !online { return Err(StoreFault), []; }
      var items;
      keys, items := Select(products, products.Keys);
      return Ok(items), keys;
    }

    // Baskets table

    method LoadBasket(id: int32) returns (r: Result<Option<Basket>>)
      ensures r == if online then Ok(Get(baskets, id)) else Err(StoreFault)
    {
      if !online { return Err(StoreFault); }
      return Ok(Get(baskets, id));
    }

    method SaveBasket(b: Basket) returns (o: Outcome)
      modifies this
      ensures products == old(products) && orders == old(orders) && online == old(online)
      ensures o == if online then Pass else Fail(StoreFault)
      ensures baskets == if online then old(baskets)[b.basketId := b] else old(baskets)
      ensures log == if online then old(log) + [PutBasket(b)] else old(log)
      ensures old(Valid()) ==> Valid()
    {
      if !online { return Fail(StoreFault); }
      baskets := baskets[b.basketId := b];
      log := log + [PutBasket(b)];
      return Pass;
    }

    method DeleteBasket(b: Basket) returns (o: Outcome)
      modifies this
      ensures products == old(products) && orders == old(orders) && online == old(online)
      ensures o == if online then Pass else Fail(StoreFault)
      ensures baskets == if online then old(baskets) - {b.basketId} else old(baskets)
      ensures log == if online then old(log) + [RemoveBasket(b)] else old(log)
      ensures old(Valid()) ==> Valid()
    {
      if !online { return Fail(StoreFault); }
      baskets := baskets - {b.basketId};
      log := log + [RemoveBasket(b)];
      return Pass;
    }

    method ScanBaskets() returns (r: Result<seq<Basket>>, keys: seq<int32>)
      ensures r.Ok? <==> online
      ensures r.Err? ==> r.error == StoreFault
      ensures r.Ok? ==> Lists(baskets, baskets.Keys, keys, r.value) && |r.value| == |baskets|
    {
      if !online { return Err(StoreFault), []; }
      var items;
      keys, items := Select(baskets, baskets.Keys);
      return Ok(items), keys;
    }

    /** A query on the baskets' customer name. */
    method QueryBaskets(cond: Condition) returns (r: Result<seq<Basket>>, keys: seq<int32>)
      ensures r.Ok? <==> online
      ensures r.Err? ==> r.error == StoreFault
      ensures r.Ok? ==> Lists(baskets, Where(baskets, BasketCustomer, cond), keys, r.value)
    {
      if !online { return Err(StoreFault), []; }
      var items;
      keys, items := Select(baskets, Where(baskets, BasketCustomer, cond));
      return Ok(items), keys;
    }

    /** The `CustomerName-index` query, latest first, limit one. */
    method QueryLatestBasket(customer: string) returns (r: Result<Option<Basket>>)
      ensures r.Ok? <==> online
      ensures r.Err? ==> r.error == StoreFault
      ensures r.Ok? ==> r.value == LatestRecord(baskets, BasketsOf(baskets, customer))
    {
      if !online { return Err(StoreFault); }
      var latest := Latest(baskets, BasketsOf(baskets, customer));
      return Ok(latest);
    }

    // Orders table

    method LoadOrder(id: int32) returns (r: Result<Option<Order>>)
      ensures r == if online then Ok(Get(orders, id)) else Err(StoreFault)
    {
      if !online { return Err(StoreFault); }
      return Ok(Get(orders, id));
    }

    method SaveOrder(o: Order) returns (out: Outcome)
      modifies this
      ensures products == old(products) && baskets == old(baskets) && online == old(online)
      ensures out == if online then Pass else Fail(StoreFault)
      ensures orders == if online then old(orders)[o.orderId := o] else old(orders)
      ensures log == if online then old(log) + [PutOrder(o)] else old(log)
      ensures old(Valid()) ==> Valid()
    {
      if !online { return Fail(StoreFault); }
      orders := orders[o.orderId := o];
      log := log + [PutOrder(o)];
      return Pass;
    }

    method DeleteOrder(o: Order) returns (out: Outcome)
      modifies this
      ensures products == old(products) && baskets == old(baskets) && online == old(online)
      ensures out == if online then Pass else Fail(StoreFault)
      ensures orders == if online then old(orders) - {o.orderId} else old(orders)
      ensures log == if online then old(log) + [RemoveOrder(o)] else old(log)
      ensures old(Valid()) ==> Valid()
    {
      if !online { return Fail(StoreFault); }
      orders := orders - {o.orderId};
      log := log + [RemoveOrder(o)];
      return Pass;
    }

    /** A query on the orders' `CustomerName-index`. */
    method QueryOrders(customer: string) returns (r: Result<seq<Order>>, keys: seq<int32>)
      ensures r.Ok? <==> online
      ensures r.Err? ==> r.error == StoreFault
      ensures r.Ok? ==> Lists(orders, OrdersOf(orders, customer), keys, r.value)
    {
      if !online { return Err(StoreFault), []; }
      var items;
      keys, items := Select(orders, OrdersOf(orders, customer));
      return Ok(items), keys;
    }

    /** The `CustomerName-index` query, latest first, limit one. */
    method QueryLatestOrder(customer: string) returns (r: Result<Option<Order>>)
      ensures r.Ok? <==> online
      ensures r.Err? ==> r.error == StoreFault
      ensures r.Ok? ==> r.value == LatestRecord(orders, OrdersOf(orders, customer))
    {
      if !online { return Err(StoreFault); }
      var latest := Latest(orders, OrdersOf(orders, customer));
      return Ok(latest);
    }
  }
}
