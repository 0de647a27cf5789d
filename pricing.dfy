/**
 * Products with a price and discounted products with a price and a discount
 * fraction, and the total price of a list of them. The subclass override of
 * `get_price` is a datatype variant here, so a list holding both kinds sums
 * each element's own price. Prices are exact reals: no floating-point
 * rounding is modelled.
 */
module Pricing {

  datatype Product =
    | Product(price: real)
    | DiscountedProduct(price: real, discount: real)

  /** The stored price for a plain product; price * (1 - discount) for a discounted one. */
  function GetPrice(product: Product): real
  {
    match product
    case Product(price) => price
    case DiscountedProduct(price, discount) => price * (1.0 - discount)
  }

  /** The sum of the elements' own prices. */
  function SumPrices(products: seq<Product>): real
  {
    if products == [] then 0.0 else GetPrice(products[0]) + SumPrices(products[1..])
  }

  /** The total of a concatenation is the sum of the totals. */
  lemma {:induction false} SumPricesAppend(xs: seq<Product>, ys: seq<Product>)
    ensures SumPrices(xs + ys) == SumPrices(xs) + SumPrices(ys)
  {
    if xs != [] {
      assert (xs + ys)[1..] == xs[1..] + ys;
      SumPricesAppend(xs[1..], ys);
    } else {
      assert xs + ys == ys;
    }
  }

  /** Accumulates each element's price, starting from 0. */
  method CalculateTotalPrice(products: seq<Product>) returns (totalPrice: real)
    ensures totalPrice == SumPrices(products)
  {
    totalPrice := 0.0;
    for i := 0 to |products|
      invariant totalPrice == SumPrices(products[..i])
    {
      SumPricesAppend(products[..i], [products[i]]);
      assert products[..i + 1] == products[..i] + [products[i]];
      totalPrice := totalPrice + GetPrice(products[i]);
    }
    assert products[..|products|] == products;
  }

  /**
   * A discount of 0 prices a product as if it were not discounted, and a
   * discount between 0 and 1 on a non-negative price gives a price between 0
   * and the undiscounted one.
   */
  lemma DiscountBounds(price: real, discount: real)
    ensures discount == 0.0 ==> GetPrice(DiscountedProduct(price, discount)) == GetPrice(Product(price))
    ensures 0.0 <= discount <= 1.0 && price >= 0.0 ==>
              0.0 <= GetPrice(DiscountedProduct(price, discount)) <= GetPrice(Product(price))
  {
    if 0.0 <= discount <= 1.0 && price >= 0.0 {
      assert price * (1.0 - discount) <= price * 1.0;
    }
  }

  /** The module-level demo: 100 + 50 + 75 at 10% off is 217.5. */
  method Demo() returns (total: real)
    ensures total == 217.5
  {
    var products := [Product(100.0), Product(50.0), DiscountedProduct(75.0, 0.1)];
    total := CalculateTotalPrice(products);
    assert products[1..][1..][1..] == [];
  }
}
