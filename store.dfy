/**
 * The cart store: the browser's local storage, seen as a map from keys to
 * cart records, and the operations the storefront runs against the record
 * under the key "swiftcart". Every mutating operation reads the record,
 * changes it, and writes the whole record back.
 */
module CartStore {
  import opened Catalog
  import opened CartModel

  /** The storage key of the cart record. */
  const CartKey: string := "swiftcart"

  /** Reading the cart record: a missing key reads as an empty cart. */
  function Load(storage: map<string, Cart>): Cart {
    if CartKey in storage then storage[CartKey] else EmptyCart
  }

  /** Writing the cart record. */
  function Save(storage: map<string, Cart>, c: Cart): map<string, Cart> {
    storage[CartKey := c]
  }

  /** A saved cart reads back unchanged, and no other key is touched. */
  lemma LoadAfterSave(storage: map<string, Cart>, c: Cart)
    ensures Load(Save(storage, c)) == c
    ensures Save(storage, c).Keys == storage.Keys + {CartKey}
    ensures forall k :: k in storage && k != CartKey ==> Save(storage, c)[k] == storage[k]
  {
  }

  /** Saving what was loaded, or what is stored, changes nothing that can be read back. */
  lemma SaveLoadedIsInvisible(storage: map<string, Cart>)
    ensures Load(Save(storage, Load(storage))) == Load(storage)
    ensures CartKey in storage ==> Save(storage, Load(storage)) == storage
  {
  }

  /** The page's view of local storage together with the cart operations of js/index.js. */
  class LocalCartStore {
    var storage: map<string, Cart>

    /** The cart every read operation sees. */
    function CurrentCart(): Cart
      reads this
    {
      Load(storage)
    }

    /** Local storage as it stands when the page loads. */
    constructor (initial: map<string, Cart>)
      ensures storage == initial
    {
      storage := initial;
    }

    /** Page-load initialisation: store an empty cart when there is no record yet. */
    method InitializeCart()
      modifies this
      ensures CartKey in old(storage) ==> storage == old(storage)
      ensures CartKey !in old(storage) ==> storage == old(storage)[CartKey := EmptyCart]
      ensures CartKey in storage && CurrentCart() == old(CurrentCart())
    {
      if CartKey !in storage {
        storage := storage[CartKey := EmptyCart];
      }
    }

    /** getCart: the stored record, or `{items: []}` when there is none. */
    method GetCart() returns (cart: Cart)
      ensures CartKey in storage ==> cart == storage[CartKey]
      ensures CartKey !in storage ==> cart == EmptyCart
    {
      if CartKey !in storage {
        return EmptyCart;
      }
      cart := storage[CartKey];
    }

    /** saveCart: overwrite the record with `cart`. */
    method SaveCart(cart: Cart)
      modifies this
      ensures storage == old(storage)[CartKey := cart]
      ensures CurrentCart() == cart
    {
      storage := storage[CartKey := cart];
    }

    /** addToCart: search for the product's line, then bump its quantity or append a new line. */
    method AddToCart(product: Product)
      modifies this
      ensures storage == Save(old(storage), AddProduct(old(CurrentCart()), product))
      ensures Valid(old(CurrentCart())) ==> Valid(CurrentCart())
      ensures TotalQuantity(CurrentCart().items) == TotalQuantity(old(CurrentCart()).items) + 1
    {
      var cart := GetCart();
      var items := cart.items;
      var existing: int := -1;
      var i := 0;
      while i < |items|
        invariant 0 <= i <= |items|
        invariant existing == -1
        invariant forall j :: 0 <= j < i ==> items[j].id != product.id
      {
        if items[i].id == product.id {
          existing := i;
          break;
        }
        i := i + 1;
      }
      if existing != -1 {
        assert FirstIndex(items, product.id) == Some(existing);
        items := items[existing := items[existing].(quantity := items[existing].quantity + 1)];
      } else {
        assert FirstIndex(items, product.id) == None;
        items := items + [NewLine(product)];
      }
      assert Cart(items) == AddProduct(cart, product);
      if Valid(cart) {
        AddProductValid(cart, product);
      }
      AddProductCount(cart, product);
      SaveCart(Cart(items));
    }

    /** removeFromCart: keep every line whose id differs. */
    method RemoveFromCart(productId: int)
      modifies this
      ensures storage == Save(old(storage), Remove(old(CurrentCart()), productId))
      ensures Valid(old(CurrentCart())) ==> Valid(CurrentCart())
    {
      var cart := GetCart();
      cart := cart.(items := Without(cart.items, productId));
      SaveCart(cart);
      if Valid(old(CurrentCart())) {
        RemoveValid(old(CurrentCart()), productId);
      }
    }

    /** updateCartItemQuantity: below 1 removes the line; otherwise the first matching line gets the new quantity. */
    method UpdateCartItemQuantity(productId: int, newQuantity: int)
      modifies this
      ensures storage == Save(old(storage), UpdateQuantity(old(CurrentCart()), productId, newQuantity))
      ensures Valid(old(CurrentCart())) ==> Valid(CurrentCart())
    {
      if Valid(CurrentCart()) {
        UpdateQuantityValid(CurrentCart(), productId, newQuantity);
      }
      if newQuantity < 1 {
        RemoveFromCart(productId);
        return;
      }
      var cart := GetCart();
      var items := cart.items;
      var i := 0;
      while i < |items|
        invariant 0 <= i <= |items|
        invariant items == cart.items
        invariant forall j :: 0 <= j < i ==> cart.items[j].id != productId
      {
        if items[i].id == productId {
          assert FirstIndex(cart.items, productId) == Some(i);
          items := items[i := items[i].(quantity := newQuantity)];
          break;
        }
        i := i + 1;
      }
      SaveCart(Cart(items));
    }

    /** clearCart: overwrite the record with an empty cart. */
    method ClearCart()
      modifies this
      ensures storage == Save(old(storage), EmptyCart)
      ensures CurrentCart() == EmptyCart && Valid(CurrentCart())
    {
      SaveCart(EmptyCart);
    }

    /** getCartItemCount: the sum of the quantities, accumulated line by line. */
    method GetCartItemCount() returns (totalItems: int)
      ensures totalItems == TotalQuantity(CurrentCart().items)
      ensures Valid(CurrentCart()) ==> totalItems >= |CurrentCart().items|
      ensures CurrentCart() == EmptyCart ==> totalItems == 0
    {
      var cart := GetCart();
      totalItems := 0;
      var i := 0;
      while i < |cart.items|
        invariant 0 <= i <= |cart.items|
        invariant totalItems == TotalQuantity(cart.items[..i])
      {
        assert cart.items[..i + 1][..i] == cart.items[..i];
        totalItems := totalItems + cart.items[i].quantity;
        i := i + 1;
      }
      assert cart.items[..|cart.items|] == cart.items;
      if Valid(cart) {
        CountAtLeastLines(cart.items);
      }
    }

    /** The count updateCartCount shows in the navbar badges (the badge is shown only when it is positive). */
    method UpdateCartCount() returns (totalItems: int)
      ensures totalItems == TotalQuantity(CurrentCart().items)
      ensures Valid(CurrentCart()) ==> (totalItems > 0 <==> CurrentCart().items != [])
    {
      var cart := GetCart();
      totalItems := 0;
      for i := 0 to |cart.items|
        invariant totalItems == TotalQuantity(cart.items[..i])
      {
        assert cart.items[..i + 1][..i] == cart.items[..i];
        totalItems := totalItems + cart.items[i].quantity;
      }
      assert cart.items[..|cart.items|] == cart.items;
      if Valid(cart) {
        CountAtLeastLines(cart.items);
      }
    }

    /** calculateCartTotals: subtotal accumulated line by line, ten percent tax, free shipping. */
    method CalculateCartTotals() returns (totals: Totals)
      ensures totals == CartTotals(CurrentCart().items)
      ensures totals.subtotal == Subtotal(CurrentCart().items)
      ensures totals.tax == totals.subtotal * TaxRate
      ensures totals.shipping == 0.0
      ensures totals.total == totals.subtotal + totals.tax + totals.shipping
    {
      var cart := GetCart();
      var subtotal := 0.0;
      var i := 0;
      while i < |cart.items|
        invariant 0 <= i <= |cart.items|
        invariant subtotal == Subtotal(cart.items[..i])
      {
        assert cart.items[..i + 1][..i] == cart.items[..i];
        var item := cart.items[i];
        subtotal := subtotal + item.price * item.quantity as real;
        i := i + 1;
      }
      assert cart.items[..|cart.items|] == cart.items;
      var tax := subtotal * TaxRate;
      var shipping := 0.0;
      var total := subtotal + tax + shipping;
      totals := Totals(subtotal, tax, shipping, total);
    }
  }
}
