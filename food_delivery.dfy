/**
 * The food-delivery system: restaurants holding a menu of food items with
 * quantities, customers holding a cart, and a delivery service listing
 * restaurants. Menus and carts are dictionaries keyed by the FoodItem object
 * itself (FoodItem defines no equality of its own, so keys compare by
 * identity): here a `map<FoodItem, int>` field that the methods reassign.
 */
module FoodDelivery {
  import opened QuantityMaps

  class FoodItem {
    const name: string
    const price: int

    constructor (name: string, price: int)
      ensures this.name == name && this.price == price
    {
      this.name := name;
      this.price := price;
    }
  }

  /** The unit value of a menu or cart entry: the item's own price. */
  function PriceOf(item: FoodItem): int
  {
    item.price
  }

  class Restaurant {
    const name: string
    var menu: map<FoodItem, int>

    constructor (name: string)
      ensures this.name == name && menu == map[]
      ensures Revenue() == 0
    {
      this.name := name;
      menu := map[];
    }

    /** The sum of price times quantity over the menu. */
    ghost function Revenue(): int
      reads this
    {
      Total(menu, PriceOf)
    }

    /**
     * A non-negative quantity is added to the item's entry, creating it (even
     * with 0) when absent; a negative one is rejected and nothing changes.
     */
    method AddToMenu(item: FoodItem, quantity: int)
      modifies this
      ensures menu == if quantity >= 0 then Incremented(old(menu), item, quantity) else old(menu)
      ensures Revenue() == old(Revenue()) + (if quantity >= 0 then item.price * quantity else 0)
      ensures NonNegative(old(menu)) ==> NonNegative(menu)
    {
      if quantity >= 0 {
        TotalIncremented(menu, item, quantity, PriceOf);
        if item in menu {
          menu := menu[item := menu[item] + quantity];
        } else {
          menu := menu[item := quantity];
        }
      }
    }

    /**
     * An item not on the menu, or a negative quantity, leaves the menu as it
     * is (absence is tested first); otherwise the entry is deleted when it
     * holds at most `quantity` and decremented when it holds more.
     */
    method RemoveFromMenu(item: FoodItem, quantity: int)
      modifies this
      ensures menu == Removed(old(menu), item, quantity)
      ensures Revenue() == old(Revenue())
           - (if item in old(menu) && quantity >= 0 then item.price * Min(old(menu)[item], quantity) else 0)
      ensures NonNegative(old(menu)) ==> NonNegative(menu)
    {
      TotalRemoved(menu, item, quantity, PriceOf);
      if item in menu {
        if quantity >= 0 {
          if menu[item] <= quantity {
            menu := menu - {item};
          } else {
            menu := menu[item := menu[item] - quantity];
          }
        }
      }
    }

    /** Accumulates price times quantity over the menu entries. */
    method GetTotalRevenue() returns (totalRevenue: int)
      ensures totalRevenue == Revenue()
    {
      totalRevenue := 0;
      var rest: map<FoodItem, int> := menu;
      while rest != map[]
        invariant totalRevenue + Total<FoodItem>(rest, PriceOf) == Revenue()
        decreases |rest|
      {
        var item :| item in rest;
        TotalDelete<FoodItem>(rest, item, PriceOf);
        totalRevenue := totalRevenue + item.price * rest[item];
        rest := rest - {item};
      }
    }
  }

  class Customer {
    const name: string
    const address: string
    var cart: map<FoodItem, int>

    constructor (name: string, address: string)
      ensures this.name == name && this.address == address && cart == map[]
    {
      this.name := name;
      this.address := address;
      cart := map[];
    }

    /** Unlike the menu, the cart takes only a strictly positive quantity: 0 is rejected too. */
    method AddToCart(item: FoodItem, quantity: int)
      modifies this
      ensures cart == if quantity > 0 then Incremented(old(cart), item, quantity) else old(cart)
      ensures NonNegative(old(cart)) ==> NonNegative(cart) && forall i :: i in cart ==> cart[i] > 0 || i in old(cart)
    {
      if quantity > 0 {
        if item in cart {
          cart := cart[item := cart[item] + quantity];
        } else {
          cart := cart[item := quantity];
        }
      }
    }

    /** The same rules as removing from a menu. */
    method RemoveFromCart(item: FoodItem, quantity: int)
      modifies this
      ensures cart == Removed(old(cart), item, quantity)
      ensures NonNegative(old(cart)) ==> NonNegative(cart)
    {
      if item in cart {
        if quantity >= 0 {
          if cart[item] <= quantity {
            cart := cart - {item};
          } else {
            cart := cart[item := cart[item] - quantity];
          }
        }
      }
    }
  }

  /**
   * The position of the first restaurant whose name equals `name`, or `|rs|`
   * when there is none.
   */
  function FirstNamed(rs: seq<Restaurant>, name: string): (i: nat)
    ensures i <= |rs|
    ensures i < |rs| ==> rs[i].name == name
    ensures forall j :: 0 <= j < i ==> rs[j].name != name
  {
    if rs == [] then 0
    else if rs[0].name == name then 0
    else 1 + FirstNamed(rs[1..], name)
  }

  class DeliveryService {
    var restaurants: seq<Restaurant>

    constructor ()
      ensures restaurants == []
    {
      restaurants := [];
    }

    method AddRestaurant(restaurant: Restaurant)
      modifies this
      ensures restaurants == old(restaurants) + [restaurant]
    {
      restaurants := restaurants + [restaurant];
    }

    /** The first restaurant, in the order added, with exactly that name; null when none has it. */
    method FindRestaurantByName(name: string) returns (found: Restaurant?)
      ensures var i := FirstNamed(restaurants, name);
              found == if i < |restaurants| then restaurants[i] else null
    {
      var i := 0;
      while i < |restaurants|
        invariant 0 <= i <= |restaurants|
        invariant forall j :: 0 <= j < i ==> restaurants[j].name != name
      {
        if restaurants[i].name == name {
          return restaurants[i];
        }
        i := i + 1;
      }
      return null;
    }
  }

  /** After adding `restaurant`, a lookup finds an earlier restaurant of that name if there is one, else this one. */
  lemma {:induction false} FirstNamedAppend(rs: seq<Restaurant>, restaurant: Restaurant, name: string)
    ensures FirstNamed(rs + [restaurant], name)
         == if FirstNamed(rs, name) < |rs| || restaurant.name == name then FirstNamed(rs, name) else |rs| + 1
  {
    if rs != [] {
      assert (rs + [restaurant])[1..] == rs[1..] + [restaurant];
      FirstNamedAppend(rs[1..], restaurant, name);
    }
  }

  /**
   * The module-level demo, restaurant side: Tasty Bites loses its whole pizza
   * entry to an over-sized remove and earns 80; Spice Delight ignores the
   * remove of a burger it never had and earns 216.
   */
  method Demo() returns (tastyBites: int, spiceDelight: int)
    ensures tastyBites == 80 && spiceDelight == 216
  {
    var burger := new FoodItem("Burger", 8);
    var pizza := new FoodItem("Pizza", 12);
    var pasta := new FoodItem("Pasta", 10);
    tastyBites := TastyBites(burger, pizza);
    spiceDelight := SpiceDelight(burger, pizza, pasta);
  }

  /** Ten burgers and five pizzas, then six pizzas removed: the pizza entry goes, 10 * 8 remains. */
  method TastyBites(burger: FoodItem, pizza: FoodItem) returns (revenue: int)
    requires burger != pizza && burger.price == 8 && pizza.price == 12
    ensures revenue == 80
  {
    var restaurant := new Restaurant("Tasty Bites");
    restaurant.AddToMenu(burger, 10);
    restaurant.AddToMenu(pizza, 5);
    restaurant.RemoveFromMenu(pizza, 6);
    assert pizza !in restaurant.menu;
    revenue := restaurant.GetTotalRevenue();
  }

  /** Eight pizzas and twelve pastas; removing a burger that is not on the menu changes nothing. */
  method SpiceDelight(burger: FoodItem, pizza: FoodItem, pasta: FoodItem) returns (revenue: int)
    requires burger != pizza && burger != pasta
    requires pizza.price == 12 && pasta.price == 10
    ensures revenue == 216
  {
    var restaurant := new Restaurant("Spice Delight");
    restaurant.AddToMenu(pizza, 8);
    restaurant.AddToMenu(pasta, 12);
    restaurant.RemoveFromMenu(burger, 1);
    assert restaurant.menu.Keys == {pizza, pasta};
    revenue := restaurant.GetTotalRevenue();
  }

  /**
   * The service of the module-level demo lists Tasty Bites then Spice Delight;
   * a lookup by an exact name finds the matching one, any other name finds none.
   */
  method ServiceDemo() returns (found: Restaurant?, missing: Restaurant?)
    ensures found != null && found.name == "Spice Delight"
    ensures missing == null
  {
    var restaurant1 := new Restaurant("Tasty Bites");
    var restaurant2 := new Restaurant("Spice Delight");
    var service := new DeliveryService();
    service.AddRestaurant(restaurant1);
    service.AddRestaurant(restaurant2);
    assert service.restaurants == [restaurant1, restaurant2];
    found := service.FindRestaurantByName("Spice Delight");
    missing := service.FindRestaurantByName("Spice delight");
  }

  /** The module-level demo, customer side: the -2 add is rejected, so the cart holds burgers and pizzas only. */
  method CartDemo() returns (cart: map<FoodItem, int>)
    ensures |cart| == 2
  {
    var burger := new FoodItem("Burger", 8);
    var pizza := new FoodItem("Pizza", 12);
    var pasta := new FoodItem("Pasta", 10);
    var customer := new Customer("Alice", "123 Main St.");
    customer.AddToCart(burger, 2);
    customer.AddToCart(pizza, 3);
    customer.AddToCart(pasta, -2);
    cart := customer.cart;
    assert cart == map[burger := 2, pizza := 3];
  }
}
