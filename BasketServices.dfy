/** The basket repository: lookups, scans, the add that allocates a
    per-customer id, update, delete, and the customer-name query. */
module Baskets {
  import opened Failures
  import opened Models
  import opened Identifiers
  import opened Store

  /** The id an add allocates for a customer: the customer's latest basket id
      plus one, or 1 for a customer without baskets. */
  ghost function AllocatedBasketId(baskets: map<int32, Basket>, customer: string): int32
  {
    NextId(LatestKey(BasketsOf(baskets, customer)))
  }

  /** Formatting a looked-up product calls ToString on its description and on
      its image URL, which throws when either is null. */
  predicate HasNullText(p: Product)
  {
    p.description.None? || p.imageUrl.None?
  }

  /** Some line item names a stored product whose formatting throws. */
  ghost predicate LookupThrows(products: map<int32, Product>, items: seq<Product>)
  {
    exists i :: 0 <= i < |items| && items[i].id in products && HasNullText(products[items[i].id])
  }

  /** A customer's baskets are among those whose customer name begins with
      that customer's name. */
  lemma NamedWithinPrefixed(baskets: map<int32, Basket>, customer: string)
    ensures BasketsOf(baskets, customer) <= Where(baskets, BasketCustomer, BeginsWith(customer))
  {
    forall k | k in BasketsOf(baskets, customer)
      ensures k in Where(baskets, BasketCustomer, BeginsWith(customer))
    {
      assert baskets[k].customerName[..|customer|] == customer;
    }
  }

  /** `counted` holds exactly the listed ids whose record has this customer
      name. */
  ghost predicate CountsNames(keys: seq<int32>, items: seq<Basket>, customer: string, counted: set<int32>)
    requires |keys| == |items|
  {
    && (forall k :: k in counted ==> exists j :: 0 <= j < |keys| && keys[j] == k && items[j].customerName == customer)
    && (forall j :: 0 <= j < |items| && items[j].customerName == customer ==> keys[j] in counted)
  }

  /** The customer name of a listed basket is exactly `customer`. */
  predicate IsNamed(b: Basket, customer: string)
  {
    b.customerName == customer
  }

  /** The ids among the first `n` listed baskets whose customer name is
      exactly `customer`. */
  ghost function Picked(keys: seq<int32>, items: seq<Basket>, customer: string, n: nat): set<int32>
    requires n <= |keys| == |items|
  {
    if n == 0 then {}
    else Picked(keys, items, customer, n - 1) + (if IsNamed(items[n - 1], customer) then {keys[n - 1]} else {})
  }

  /** An id is picked from a prefix exactly when some listed basket in that
      prefix has it and has the customer's name. */
  lemma {:induction false} PickedMembers(keys: seq<int32>, items: seq<Basket>, customer: string, n: nat)
    requires n <= |keys| == |items|
    ensures forall k :: k in Picked(keys, items, customer, n) <==>
      exists j :: 0 <= j < n && keys[j] == k && IsNamed(items[j], customer)
  {
    if n > 0 {
      PickedMembers(keys, items, customer, n - 1);
    }
  }

  /** The names the `foreach` of GetUsersBasketsByName has collected after
      the first `n` listed baskets. */
  ghost function Matching(items: seq<Basket>, customer: string, n: nat): seq<string>
    requires n <= |items|
  {
    if n == 0 then []
    else Matching(items, customer, n - 1) + (if IsNamed(items[n - 1], customer) then [items[n - 1].customerName] else [])
  }

  /** Adding an id the set lacks grows it by one. */
  lemma AddFresh(s: set<int32>, x: int32)
    requires x !in s
    ensures |s + {x}| == |s| + 1
  {
  }

  /** Over distinct ids, the id at position `i` is not picked from a prefix
      that stops before it. */
  lemma {:induction false} NotPickedBefore(keys: seq<int32>, items: seq<Basket>, customer: string, m: nat, i: nat)
    requires Distinct(keys) && m <= i < |keys| == |items|
    ensures keys[i] !in Picked(keys, items, customer, m)
  {
    if m > 0 {
      NotPickedBefore(keys, items, customer, m - 1, i);
      assert keys[m - 1] != keys[i];
    }
  }

  /** Every name collected from a prefix is the customer's name. */
  lemma {:induction false} MatchingNames(items: seq<Basket>, customer: string, n: nat)
    requires n <= |items|
    ensures forall j :: 0 <= j < |Matching(items, customer, n)| ==> Matching(items, customer, n)[j] == customer
  {
    if n > 0 {
      MatchingNames(items, customer, n - 1);
      var before := Matching(items, customer, n - 1);
      if IsNamed(items[n - 1], customer) {
        assert Matching(items, customer, n) == before + [customer];
      } else {
        assert Matching(items, customer, n) == before;
      }
    }
  }

  /** Over distinct ids, one more listed basket adds one picked id exactly
      when it has the customer's name. */
  lemma PickedStep(keys: seq<int32>, items: seq<Basket>, customer: string, n: nat)
    requires Distinct(keys) && 0 < n <= |keys| == |items|
    ensures |Picked(keys, items, customer, n)| ==
      |Picked(keys, items, customer, n - 1)| + (if IsNamed(items[n - 1], customer) then 1 else 0)
  {
    if IsNamed(items[n - 1], customer) {
      NotPickedBefore(keys, items, customer, n - 1, n - 1);
      AddFresh(Picked(keys, items, customer, n - 1), keys[n - 1]);
    }
  }

  /** Over distinct ids, the names collected from a prefix are as many as the
      ids picked from it. */
  lemma {:induction false} MatchingCount(keys: seq<int32>, items: seq<Basket>, customer: string, n: nat)
    requires Distinct(keys) && n <= |keys| == |items|
    ensures |Matching(items, customer, n)| == |Picked(keys, items, customer, n)|
  {
    if n > 0 {
      MatchingCount(keys, items, customer, n - 1);
      PickedStep(keys, items, customer, n);
    }
  }

  /** The `foreach` of GetUsersBasketsByName: the customer name once for each
      listed basket whose name is exactly `customer`. */
  method CollectNames(keys: seq<int32>, items: seq<Basket>, customer: string) returns (users: seq<string>, ghost counted: set<int32>)
    requires Distinct(keys) && |keys| == |items|
    ensures CountsNames(keys, items, customer, counted)
    ensures |users| == |counted|
    ensures forall j :: 0 <= j < |users| ==> users[j] == customer
  {
    users := [];
    for i := 0 to |items|
      invariant users == Matching(items, customer, i)
    {
      if items[i].customerName == customer {
        users := users + [items[i].customerName];
      }
    }
    counted := Picked(keys, items, customer, |items|);
    PickedMembers(keys, items, customer, |items|);
    MatchingCount(keys, items, customer, |items|);
    MatchingNames(items, customer, |items|);
  }

  /** Counting the listed baskets whose customer name is exactly `customer`
      counts all of that customer's baskets. */
  lemma CountedIsNamed(baskets: map<int32, Basket>, customer: string, keys: seq<int32>, items: seq<Basket>, counted: set<int32>)
    requires Lists(baskets, Where(baskets, BasketCustomer, BeginsWith(customer)), keys, items)
    requires CountsNames(keys, items, customer, counted)
    ensures counted == BasketsOf(baskets, customer)
  {
    NamedWithinPrefixed(baskets, customer);
    forall k | k in counted ensures k in BasketsOf(baskets, customer) {
      var j :| 0 <= j < |keys| && keys[j] == k && items[j].customerName == customer;
      assert items[j] == baskets[k];
    }
    forall k | k in BasketsOf(baskets, customer) ensures k in counted {
      assert k in keys;
      var j :| 0 <= j < |keys| && keys[j] == k;
      assert items[j] == baskets[k];
    }
  }

  class BasketServices {
    const context: Context

    constructor (context: Context)
      ensures this.context == context
    {
      this.context := context;
    }

    /** The stored basket, or null when there is none. */
    method GetBasketById(basketId: int32) returns (r: Result<Option<Basket>>)
      ensures r.Ok? <==> context.online
      ensures r.Err? ==> r.error == Wrap(BasketErr, StoreFault)
      ensures r.Ok? ==> (r.value.Some? <==> basketId in context.baskets)
      ensures r.Ok? && r.value.Some? ==> r.value.value == context.baskets[basketId]
    {
      var basket := context.LoadBasket(basketId);
      if basket.Err? {
        return Err(Wrap(BasketErr, basket.error));
      }
      return basket;
    }

    /** Every stored basket, once each; an empty table gives an empty list. */
    method GetAllBaskets() returns (r: Result<seq<Basket>>)
      ensures r.Ok? <==> context.online
      ensures r.Err? ==> r.error == Wrap(BasketErr, StoreFault)
      ensures r.Ok? ==> |r.value| == |context.baskets|
      ensures r.Ok? ==> forall b :: b in r.value <==> b in context.baskets.Values
    {
      var baskets, keys := context.ScanBaskets();
      if baskets.Err? {
        return Err(Wrap(BasketErr, baskets.error));
      }
      ListsAllValues(context.baskets, keys, baskets.value);
      return baskets;
    }

    /** Gives the basket the customer's next id, looks up each line item's
        product (the results are never used, but formatting one can throw),
        upserts the basket and reads it back. A failure of the id query is
        wrapped twice: once by GetNextId and once here. */
    method AddBasket(basket: Basket) returns (r: Result<Option<Basket>>)
      requires context.Valid()
      modifies context
      ensures context.Valid() && context.online == old(context.online)
      ensures context.products == old(context.products) && context.orders == old(context.orders)
      ensures !context.online ==>
        r == Err(Wrap(BasketErr, Wrap(BasketErr, StoreFault))) &&
        context.baskets == old(context.baskets) && context.log == old(context.log)
      ensures context.online && LookupThrows(context.products, basket.products) ==>
        r == Err(Wrap(BasketErr, NullReference)) &&
        context.baskets == old(context.baskets) && context.log == old(context.log)
      ensures context.online && !LookupThrows(context.products, basket.products) ==>
        var saved := basket.(basketId := AllocatedBasketId(old(context.baskets), basket.customerName));
        && context.baskets == old(context.baskets)[saved.basketId := saved]
        && context.log == old(context.log) + [PutBasket(saved)]
        && r == Ok(Some(context.baskets[saved.basketId]))
        && r == Ok(Some(saved))
    {
      var latestOrderId := GetNextId(basket.customerName);
      if latestOrderId.Err? {
        return Err(Wrap(BasketErr, latestOrderId.error));
      }
      var withId := basket.(basketId := latestOrderId.value);
      var lookedUp := LookUpLineItems(withId.products);
      if lookedUp.Err? {
        return Err(Wrap(BasketErr, lookedUp.error));
      }
      var saved := context.SaveBasket(withId);
      assert saved.Pass?;
      var response := context.LoadBasket(withId.basketId);
      return response;
    }

    /** The `foreach` over the line items in AddBasket: loads each item's
        product from the Products table and formats the ones found. Returns
        the products found, in line-item order, or the exception that
        formatting one of them throws. */
    method LookUpLineItems(items: seq<Product>) returns (r: Result<seq<Product>>)
      requires context.online
      ensures r.Err? <==> LookupThrows(context.products, items)
      ensures r.Err? ==> r.error == NullReference
      ensures r.Ok? ==> forall p :: p in r.value <==> exists i :: 0 <= i < |items| && items[i].id in context.products && context.products[items[i].id] == p
    {
      var products: seq<Product> := [];
      for i := 0 to |items|
        invariant forall j :: 0 <= j < i && items[j].id in context.products ==>
          !HasNullText(context.products[items[j].id])
        invariant forall p :: p in products <==> exists j :: 0 <= j < i && items[j].id in context.products && context.products[items[j].id] == p
      {
        var productToAdd := context.LoadProduct(items[i].id);
        assert productToAdd.Ok?;
        if productToAdd.value.Some? {
          if HasNullText(productToAdd.value.value) {
            return Err(NullReference);
          }
          products := products + [productToAdd.value.value];
        }
      }
      return Ok(products);
    }

    /** Replaces an existing basket with the request and returns the record as
        it was before the update; a missing id gives null and no write. */
    method UpdateBasket(basketRequest: Basket) returns (r: Result<Option<Basket>>)
      requires context.Valid()
      modifies context
      ensures context.Valid() && context.online == old(context.online)
      ensures context.products == old(context.products) && context.orders == old(context.orders)
      ensures !context.online ==>
        r == Err(Wrap(BasketErr, StoreFault)) &&
        context.baskets == old(context.baskets) && context.log == old(context.log)
      ensures context.online && basketRequest.basketId !in old(context.baskets) ==>
        r == Ok(None) &&
        context.baskets == old(context.baskets) && context.log == old(context.log)
      ensures context.online && basketRequest.basketId in old(context.baskets) ==>
        r == Ok(Some(old(context.baskets)[basketRequest.basketId])) &&
        context.baskets == old(context.baskets)[basketRequest.basketId := basketRequest] &&
        context.log == old(context.log) + [PutBasket(basketRequest)]
    {
      var basket := context.LoadBasket(basketRequest.basketId);
      if basket.Err? {
        return Err(Wrap(BasketErr, basket.error));
      }
      if basket.value.None? {
        return Ok(None);
      }
      var saved := context.SaveBasket(basketRequest);
      assert saved.Pass?;
      return basket;
    }

    /** Deletes the basket with this id after checking that it exists. */
    method DeleteBasket(basketId: int32) returns (r: Result<bool>)
      requires context.Valid()
      modifies context
      ensures context.Valid() && context.online == old(context.online)
      ensures context.products == old(context.products) && context.orders == old(context.orders)
      ensures !context.online ==>
        r == Err(Wrap(BasketErr, StoreFault)) &&
        context.baskets == old(context.baskets) && context.log == old(context.log)
      ensures context.online && basketId !in old(context.baskets) ==>
        r == Err(Wrap(BasketErr, Raised(BasketErr))) &&
        context.baskets == old(context.baskets) && context.log == old(context.log)
      ensures context.online && basketId in old(context.baskets) ==>
        r == Ok(true) &&
        context.baskets == old(context.baskets) - {basketId} &&
        context.log == old(context.log) + [RemoveBasket(old(context.baskets)[basketId])]
    {
      var loaded := context.LoadBasket(basketId);
      if loaded.Err? {
        return Err(Wrap(BasketErr, loaded.error));
      }
      if loaded.value.None? {
        return Err(Wrap(BasketErr, Raised(BasketErr)));
      }
      var basket := loaded.value.value;
      var deleted := context.DeleteBasket(basket);
      assert deleted.Pass?;
      return Ok(true);
    }

    /** Queries the baskets whose customer name begins with `userName` and
        returns the name once for each of them whose name is exactly
        `userName`. `userId` is not used. There is no try block, so a store
        failure surfaces unwrapped. */
    method GetUsersBasketsByName(userId: int32, userName: string) returns (r: Result<seq<string>>)
      ensures r.Ok? <==> context.online
      ensures r.Err? ==> r.error == StoreFault
      ensures r.Ok? ==> |r.value| == |BasketsOf(context.baskets, userName)|
      ensures r.Ok? ==> forall i :: 0 <= i < |r.value| ==> r.value[i] == userName
    {
      var baskets, keys := context.QueryBaskets(BeginsWith(userName));
      if baskets.Err? {
        return Err(baskets.error);
      }
      var items := baskets.value;
      ghost var named := BasketsOf(context.baskets, userName);
      NamedWithinPrefixed(context.baskets, userName);
      if |items| == 0 {
        assert keys == [];
        return Ok([]);
      }
      var users, counted := CollectNames(keys, items, userName);
      CountedIsNamed(context.baskets, userName, keys, items, counted);
      return Ok(users);
    }

    /** The customer's latest basket id plus one, or 1 when the customer has
        no basket. */
    method GetNextId(customerName: string) returns (r: Result<int32>)
      requires context.Valid()
      ensures r.Ok? <==> context.online
      ensures r.Err? ==> r.error == Wrap(BasketErr, StoreFault)
      ensures r.Ok? ==> r.value == AllocatedBasketId(context.baskets, customerName)
    {
      var orders := context.QueryLatestBasket(customerName);
      if orders.Err? {
        return Err(Wrap(BasketErr, orders.error));
      }
      var latestBasketId := match orders.value case None => None case Some(b) => Some(b.basketId);
      return Ok(NextId(latestBasketId));
    }
  }
}
