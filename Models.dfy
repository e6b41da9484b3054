/** The three persisted entities and the derived basket total. */
module Models {
  import opened Failures

  /** C# `int`. */
  newtype int32 = x: int | -0x8000_0000 <= x < 0x8000_0000

  const MaxInt32: int32 := 0x7FFF_FFFF
  const MinInt32: int32 := -0x8000_0000

  /** A `DateTime` value, as a tick count; no operation of the core reads a clock. */
  type Ticks = int

  /** A catalogue product, also embedded in baskets as a line item whose
      `quantity` is the quantity in the basket. `price` is a C# `decimal`,
      which is exact for the values involved, so it is a `real` here.
      `description` and `imageUrl` are the nullable strings of the source. */
  datatype Product = Product(
    id: int32,
    name: string,
    description: Option<string>,
    price: real,
    imageUrl: Option<string>,
    quantity: int32,
    createdAt: Option<Ticks>,
    updatedAt: Option<Ticks>)

  /** A customer's basket. `TotalPrice` is derived from `products` and has no
      field of its own, so it can never disagree with the line items. */
  datatype Basket = Basket(
    basketId: int32,
    customerName: string,
    products: seq<Product>,
    createdAt: Option<Ticks>,
    updatedAt: Option<Ticks>)
  {
    /** `Products.Sum(item => item.Price * item.Quantity)`: LINQ's Sum adds the
        terms from the first line item to the last, starting at zero. The
        result is the sum of price times quantity over the line items, so a
        basket without line items totals zero. */
    function TotalPrice(): (r: real)
      ensures r == Sum(products)
      ensures products == [] ==> r == 0.0
    {
      AccumulateIsSum(0.0, products);
      Accumulate(0.0, products)
    }
  }

  /** An order; `basketId` refers to a basket by value and is never checked. */
  datatype Order = Order(
    orderId: int32,
    customerName: string,
    basketId: int32,
    orderDate: Ticks)

  function LineTotal(item: Product): real
  {
    item.price * item.quantity as real
  }

  /** The left fold LINQ's Sum performs: `acc` plus every line total, in order. */
  function Accumulate(acc: real, items: seq<Product>): real
    decreases |items|
  {
    if items == [] then acc else Accumulate(acc + LineTotal(items[0]), items[1..])
  }

  /** The mathematical sum of the line totals, as a reference definition. */
  function Sum(items: seq<Product>): real
  {
    if items == [] then 0.0 else LineTotal(items[0]) + Sum(items[1..])
  }

  /** The running fold is the starting value plus the sum. */
  lemma {:induction false} AccumulateIsSum(acc: real, items: seq<Product>)
    ensures Accumulate(acc, items) == acc + Sum(items)
    decreases |items|
  {
    if items != [] {
      AccumulateIsSum(acc + LineTotal(items[0]), items[1..]);
    }
  }

  /** The sum over two concatenated line-item lists is the sum of the sums. */
  lemma {:induction false} SumConcat(xs: seq<Product>, ys: seq<Product>)
    ensures Sum(xs + ys) == Sum(xs) + Sum(ys)
    decreases |xs|
  {
    if xs == [] {
      assert xs + ys == ys;
    } else {
      assert (xs + ys)[1..] == xs[1..] + ys;
      SumConcat(xs[1..], ys);
    }
  }

  /** Appending a line item raises the total by exactly that item's price
      times quantity. */
  lemma TotalPriceAppend(b: Basket, item: Product)
    ensures b.(products := b.products + [item]).TotalPrice() == b.TotalPrice() + LineTotal(item)
  {
    SumConcat(b.products, [item]);
    assert Sum([item]) == LineTotal(item) by {
      assert [item][1..] == [];
    }
  }
}
