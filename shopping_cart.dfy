/**
 * The e-commerce system: products carrying their own price and stock
 * quantity, a shopping cart mapping each Product object (compared by
 * identity) to a cart quantity, and a customer who checks the cart out.
 * A cart line is worth price * product.quantity * cart quantity: the
 * product's stock field is multiplied in as well.
 */
module ShoppingCartSystem {
  import opened QuantityMaps

  class Product {
    const name: string
    const price: int
    var quantity: int

    constructor (name: string, price: int, quantity: int)
      ensures this.name == name && this.price == price && this.quantity == quantity
    {
      this.name := name;
      this.price := price;
      this.quantity := quantity;
    }

    /** Price times the product's own quantity. */
    function GetTotalPrice(): int
      reads this
    {
      price * quantity
    }

    /** A non-negative quantity replaces the stored one; a negative one is rejected. */
    method UpdateQuantity(newQuantity: int)
      modifies this
      ensures quantity == if newQuantity >= 0 then newQuantity else old(quantity)
      ensures old(quantity) >= 0 ==> quantity >= 0
    {
      if newQuantity >= 0 {
        quantity := newQuantity;
      }
    }
  }

  /** Each cart line's value: the product's total price times its cart quantity. */
  ghost function CartLines(m: map<Product, int>): (lines: map<Product, int>)
    reads m.Keys
    ensures lines.Keys == m.Keys
  {
    map p | p in m :: p.GetTotalPrice() * m[p]
  }

  class ShoppingCart {
    var products: map<Product, int>

    constructor ()
      ensures products == map[]
    {
      products := map[];
    }

    /** The sum of price * product quantity * cart quantity over the cart. */
    ghost function CartTotal(): int
      reads this, products.Keys
    {
      SumValues(CartLines(products))
    }

    /**
     * A non-negative quantity is added to the product's entry, creating it
     * (even with 0) when absent; a negative one is rejected.
     */
    method AddProduct(product: Product, quantity: int)
      modifies this
      ensures products == if quantity >= 0 then Incremented(old(products), product, quantity) else old(products)
      ensures CartTotal() == old(CartTotal()) + (if quantity >= 0 then product.GetTotalPrice() * quantity else 0)
      ensures NonNegative(old(products)) ==> NonNegative(products)
    {
      if quantity >= 0 {
        ghost var before := products;
        ghost var held := Held(before, product);
        if product in products {
          products := products[product := products[product] + quantity];
        } else {
          products := products[product := quantity];
        }
        var t := product.GetTotalPrice();
        assert CartLines(products) == CartLines(before)[product := t * (held + quantity)];
        SumValuesUpdate(CartLines(before), product, t * (held + quantity));
        assert Held(CartLines(before), product) == t * held;
        Distribute(t, held, quantity);
      }
    }

    /**
     * An absent product or a negative quantity leaves the cart as it is;
     * otherwise the entry is deleted when it holds at most `quantity` and
     * decremented when it holds more.
     */
    method RemoveProduct(product: Product, quantity: int)
      modifies this
      ensures products == Removed(old(products), product, quantity)
      ensures CartTotal() == old(CartTotal())
           - (if product in old(products) && quantity >= 0
              then product.GetTotalPrice() * Min(old(products)[product], quantity) else 0)
      ensures NonNegative(old(products)) ==> NonNegative(products)
    {
      ghost var before := products;
      if product in products {
        if quantity >= 0 {
          var t := product.GetTotalPrice();
          if products[product] <= quantity {
            products := products - {product};
            assert CartLines(products) == CartLines(before) - {product};
            SumValuesRemove(CartLines(before), product);
          } else {
            products := products[product := products[product] - quantity];
            assert CartLines(products) == CartLines(before)[product := t * (before[product] - quantity)];
            SumValuesUpdate(CartLines(before), product, t * (before[product] - quantity));
            Distribute(t, before[product] - quantity, quantity);
          }
        }
      }
    }

    /** Accumulates each product's total price times its cart quantity. */
    method GetTotalCartPrice() returns (totalPrice: int)
      ensures totalPrice == CartTotal()
    {
      totalPrice := 0;
      var rest: map<Product, int> := products;
      while rest != map[]
        invariant rest.Keys <= products.Keys
        invariant totalPrice + SumValues(CartLines(rest)) == CartTotal()
        decreases |rest|
      {
        var product :| product in rest;
        SumValuesRemove(CartLines(rest), product);
        assert CartLines(rest - {product}) == CartLines(rest) - {product};
        totalPrice := totalPrice + product.GetTotalPrice() * rest[product];
        rest := rest - {product};
      }
    }
  }

  class Customer {
    const name: string
    const email: string
    const shoppingCart: ShoppingCart

    constructor (name: string, email: string)
      ensures this.name == name && this.email == email
      ensures fresh(shoppingCart) && shoppingCart.products == map[]
    {
      this.name := name;
      this.email := email;
      shoppingCart := new ShoppingCart();
    }

    method AddToCart(product: Product, quantity: int)
      modifies shoppingCart
      ensures shoppingCart.products
           == if quantity >= 0 then Incremented(old(shoppingCart.products), product, quantity)
              else old(shoppingCart.products)
      ensures shoppingCart.CartTotal()
           == old(shoppingCart.CartTotal()) + (if quantity >= 0 then product.GetTotalPrice() * quantity else 0)
    {
      shoppingCart.AddProduct(product, quantity);
    }

    method RemoveFromCart(product: Product, quantity: int)
      modifies shoppingCart
      ensures shoppingCart.products == Removed(old(shoppingCart.products), product, quantity)
    {
      shoppingCart.RemoveProduct(product, quantity);
    }

    /**
     * Charges the cart total and empties the cart when that total is
     * positive; a cart whose total is 0 or less (empty, or holding only
     * zero-valued lines) is left as it is.
     */
    method Checkout() returns (totalPrice: int)
      modifies shoppingCart
      ensures totalPrice == old(shoppingCart.CartTotal())
      ensures shoppingCart.products == if totalPrice > 0 then map[] else old(shoppingCart.products)
    {
      totalPrice := shoppingCart.GetTotalCartPrice();
      if totalPrice > 0 {
        shoppingCart.products := map[];
      }
    }
  }

  /** The empty cart is worth 0, so a checkout right after a successful one charges nothing and changes nothing. */
  method CheckoutTwice(customer: Customer) returns (first: int, second: int)
    modifies customer.shoppingCart
    ensures first > 0 ==> second == 0 && customer.shoppingCart.products == map[]
    ensures first <= 0 ==> second == first && customer.shoppingCart.products == old(customer.shoppingCart.products)
  {
    first := customer.Checkout();
    second := customer.Checkout();
  }

  /**
   * The module-level demo: one keyboard (50, stock 2) and two mice (30,
   * stock 3) check out at 50*2*1 + 30*3*2 = 280; the cart is then empty, and
   * the later -1 add and the remove of the now-absent mouse change nothing.
   */
  method Demo() returns (total: int, after: map<Product, int>)
    ensures total == 280 && after == map[]
  {
    var keyboard := new Product("Keyboard", 50, 2);
    var mouse := new Product("Mouse", 30, 3);
    var customer := new Customer("John Doe", "john.doe@example.com");
    customer.AddToCart(keyboard, 1);
    assert customer.shoppingCart.CartTotal() == 100;
    customer.AddToCart(mouse, 2);
    assert customer.shoppingCart.CartTotal() == 280;
    total := customer.Checkout();
    customer.AddToCart(keyboard, -1);
    customer.RemoveFromCart(mouse, 3);
    after := customer.shoppingCart.products;
  }
}
