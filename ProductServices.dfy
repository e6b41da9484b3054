/** The product repository: point lookups, full scans, and adds, updates and
    deletes on the Products table. Every failure surfaces as a ProductErr. */
module Products {
  import opened Failures
  import opened Models
  import opened Store

  class ProductServices {
    const context: Context

    constructor (context: Context)
      ensures this.context == context
    {
      this.context := context;
    }

    /** Upserts the product under its own id, then reads that id back. The
        catch block builds its exception from a message only, so no cause
        is attached. */
    method AddProduct(product: Product) returns (r: Result<Option<Product>>)
      requires context.Valid()
      modifies context
      ensures context.Valid() && context.online == old(context.online)
      ensures context.baskets == old(context.baskets) && context.orders == old(context.orders)
      ensures !context.online ==>
        r == Err(Raised(ProductErr)) &&
        context.products == old(context.products) && context.log == old(context.log)
      ensures context.online ==>
        context.products == old(context.products)[product.id := product] &&
        context.log == old(context.log) + [PutProduct(product)] &&
        r == Ok(Some(context.products[product.id])) && r == Ok(Some(product))
    {
      var saved := context.SaveProduct(product);
      if saved.Fail? {
        return Err(Raised(ProductErr));
      }
      var returnProduct := context.LoadProduct(product.id);
      // The store stays reachable within one operation.
      assert returnProduct.Ok?;
      return returnProduct;
    }

    /** Deletes the product with this id after checking that it exists; the
        "not found" exception raised inside the try is wrapped again by the
        catch block. */
    method DeleteProduct(id: int32) returns (r: Result<bool>)
      requires context.Valid()
      modifies context
      ensures context.Valid() && context.online == old(context.online)
      ensures context.baskets == old(context.baskets) && context.orders == old(context.orders)
      ensures !context.online ==>
        r == Err(Wrap(ProductErr, StoreFault)) &&
        context.products == old(context.products) && context.log == old(context.log)
      ensures context.online && id !in old(context.products) ==>
        r == Err(Wrap(ProductErr, Raised(ProductErr))) &&
        context.products == old(context.products) && context.log == old(context.log)
      ensures context.online && id in old(context.products) ==>
        r == Ok(true) &&
        context.products == old(context.products) - {id} &&
        context.log == old(context.log) + [RemoveProduct(old(context.products)[id])]
    {
      var loaded := context.LoadProduct(id);
      if loaded.Err? {
        return Err(Wrap(ProductErr, loaded.error));
      }
      if loaded.value.None? {
        return Err(Wrap(ProductErr, Raised(ProductErr)));
      }
      var product := loaded.value.value;
      var deleted := context.DeleteProduct(product);
      assert deleted.Pass?;
      return Ok(true);
    }

    /** Every stored product, once each; an empty table gives an empty list. */
    method GetAllProducts() returns (r: Result<seq<Product>>)
      ensures r.Ok? <==> context.online
      ensures r.Err? ==> r.error == Wrap(ProductErr, StoreFault)
      ensures r.Ok? ==> |r.value| == |context.products|
      ensures r.Ok? ==> forall p :: p in r.value <==> p in context.products.Values
    {
      var products, keys := context.ScanProducts();
      if products.Err? {
        return Err(Wrap(ProductErr, products.error));
      }
      ListsAllValues(context.products, keys, products.value);
      return products;
    }

    /** The stored product, or null when there is none; absence is not an error. */
    method GetProductById(id: int32) returns (r: Result<Option<Product>>)
      ensures r.Ok? <==> context.online
      ensures r.Err? ==> r.error == Wrap(ProductErr, StoreFault)
      ensures r.Ok? ==> (r.value.Some? <==> id in context.products)
      ensures r.Ok? && r.value.Some? ==> r.value.value == context.products[id]
    {
      var product := context.LoadProduct(id);
      if product.Err? {
        return Err(Wrap(ProductErr, product.error));
      }
      return product;
    }

    /** Replaces an existing product with the request and returns the request,
        that is the new value; a missing id gives null and no write. */
    method UpdateProduct(productRequest: Product) returns (r: Result<Option<Product>>)
      requires context.Valid()
      modifies context
      ensures context.Valid() && context.online == old(context.online)
      ensures context.baskets == old(context.baskets) && context.orders == old(context.orders)
      ensures !context.online ==>
        r == Err(Wrap(ProductErr, StoreFault)) &&
        context.products == old(context.products) && context.log == old(context.log)
      ensures context.online && productRequest.id !in old(context.products) ==>
        r == Ok(None) &&
        context.products == old(context.products) && context.log == old(context.log)
      ensures context.online && productRequest.id in old(context.products) ==>
        r == Ok(Some(productRequest)) &&
        context.products == old(context.products)[productRequest.id := productRequest] &&
        context.log == old(context.log) + [PutProduct(productRequest)]
    {
      var product := context.LoadProduct(productRequest.id);
      if product.Err? {
        return Err(Wrap(ProductErr, product.error));
      }
      if product.value.None? {
        return Ok(None);
      }
      var saved := context.SaveProduct(productRequest);
      assert saved.Pass?;
      return Ok(Some(productRequest));
    }
  }
}
