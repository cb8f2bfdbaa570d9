/**
 * The cart record and the pure operations on it: what addToCart,
 * removeFromCart, updateCartItemQuantity and clearCart turn a cart into, and
 * the aggregates the item count and the order summary show.
 */
module CartModel {
  import opened Catalog

  datatype Option<+T> = None | Some(value: T)

  /** One line of the cart: a snapshot of the product taken when it was first added, and a quantity. */
  datatype LineItem = LineItem(id: int, title: string, price: real, image: string, quantity: int)

  /** The persisted record `{items: [...]}`; item order is the order of first addition. */
  datatype Cart = Cart(items: seq<LineItem>)

  const EmptyCart: Cart := Cart([])

  /** At most one line per product id. */
  predicate UniqueIds(items: seq<LineItem>) {
    forall i, j :: 0 <= i < j < |items| ==> items[i].id != items[j].id
  }

  /** Every line holds at least one unit. */
  predicate PositiveQuantities(items: seq<LineItem>) {
    forall i :: 0 <= i < |items| ==> items[i].quantity >= 1
  }

  /** The invariant the cart operations keep. */
  predicate Valid(c: Cart) {
    UniqueIds(c.items) && PositiveQuantities(c.items)
  }

  predicate HasId(items: seq<LineItem>, id: int) {
    exists i :: 0 <= i < |items| && items[i].id == id
  }

  /** The index the source's search loop stops at: the first line with `id`, if any. */
  function FirstIndex(items: seq<LineItem>, id: int): (r: Option<nat>)
    ensures r.None? <==> !HasId(items, id)
    ensures r.Some? ==>
      r.value < |items| && items[r.value].id == id &&
      forall j :: 0 <= j < r.value ==> items[j].id != id
  {
    if items == [] then None
    else if items[0].id == id then Some(0)
    else
      match FirstIndex(items[1..], id)
      case None =>
        assert forall i :: 1 <= i < |items| ==> items[i] == items[1..][i - 1];
        None
      case Some(k) =>
        assert forall j :: 1 <= j < k + 1 ==> items[j] == items[1..][j - 1];
        Some(k + 1)
  }

  /** In a cart with unique ids, the first line with `id` is the only one. */
  lemma FirstIndexIsOnly(items: seq<LineItem>, id: int, k: nat)
    requires UniqueIds(items)
    requires FirstIndex(items, id) == Some(k)
    ensures forall j :: 0 <= j < |items| && items[j].id == id ==> j == k
  {
  }

  /** The line addToCart appends for a product not yet in the cart. */
  function NewLine(p: Product): LineItem {
    LineItem(p.id, p.title, p.price, p.image, 1)
  }

  /** The cart after one addToCart(p). */
  function AddProduct(c: Cart, p: Product): (r: Cart)
    ensures !HasId(c.items, p.id) ==>
      |r.items| == |c.items| + 1 &&
      r.items[..|c.items|] == c.items &&
      r.items[|c.items|] == NewLine(p)
    ensures HasId(c.items, p.id) ==>
      |r.items| == |c.items| &&
      exists k :: 0 <= k < |c.items| && FirstIndex(c.items, p.id) == Some(k) &&
        r.items[k] == c.items[k].(quantity := c.items[k].quantity + 1) &&
        forall j :: 0 <= j < |c.items| && j != k ==> r.items[j] == c.items[j]
  {
    match FirstIndex(c.items, p.id)
    case Some(k) => Cart(c.items[k := c.items[k].(quantity := c.items[k].quantity + 1)])
    case None => Cart(c.items + [NewLine(p)])
  }

  /** `cart.items.filter(item => item.id !== id)`. */
  function Without(items: seq<LineItem>, id: int): (r: seq<LineItem>)
    ensures |r| <= |items|
    ensures forall x :: x in r <==> x in items && x.id != id
    ensures !HasId(items, id) ==> r == items
  {
    if items == [] then []
    else if items[0].id == id then Without(items[1..], id)
    else
      assert !HasId(items, id) ==> !HasId(items[1..], id);
      [items[0]] + Without(items[1..], id)
  }

  /** The cart after removeFromCart(id). */
  function Remove(c: Cart, id: int): (r: Cart)
    ensures !HasId(r.items, id)
    ensures forall x :: x in r.items <==> x in c.items && x.id != id
    ensures !HasId(c.items, id) ==> r == c
  {
    Cart(Without(c.items, id))
  }

  /** The cart after updateCartItemQuantity(id, n). */
  function UpdateQuantity(c: Cart, id: int, n: int): (r: Cart)
    ensures n < 1 ==> r == Remove(c, id)
    ensures n >= 1 && !HasId(c.items, id) ==> r == c
    ensures n >= 1 && HasId(c.items, id) ==>
      |r.items| == |c.items| &&
      exists k :: 0 <= k < |c.items| && FirstIndex(c.items, id) == Some(k) &&
        r.items[k] == c.items[k].(quantity := n) &&
        forall j :: 0 <= j < |c.items| && j != k ==> r.items[j] == c.items[j]
  {
    if n < 1 then Remove(c, id)
    else
      match FirstIndex(c.items, id)
      case Some(k) => Cart(c.items[k := c.items[k].(quantity := n)])
      case None => c
  }

  /** Sum of the quantities, accumulated from the first line to the last. */
  function TotalQuantity(items: seq<LineItem>): int {
    if items == [] then 0 else TotalQuantity(items[..|items| - 1]) + items[|items| - 1].quantity
  }

  /** What one line contributes to the subtotal. */
  function LineTotal(l: LineItem): real {
    l.price * l.quantity as real
  }

  /** Sum of price times quantity, accumulated from the first line to the last. */
  function Subtotal(items: seq<LineItem>): real {
    if items == [] then 0.0 else Subtotal(items[..|items| - 1]) + LineTotal(items[|items| - 1])
  }

  /** The exact figures calculateCartTotals publishes (before its rounding). */
  datatype Totals = Totals(subtotal: real, tax: real, shipping: real, total: real)

  const TaxRate: real := 0.1
  const Shipping: real := 0.0

  function CartTotals(items: seq<LineItem>): Totals {
    var subtotal := Subtotal(items);
    var tax := subtotal * TaxRate;
    Totals(subtotal, tax, Shipping, subtotal + tax + Shipping)
  }

  // ---------------------------------------------------------------------
  // Aggregates under single-line replacement
  // ---------------------------------------------------------------------

  /** Replacing one line changes the item count by the difference of the two quantities. */
  lemma {:induction false} TotalQuantityReplace(s: seq<LineItem>, k: nat, x: LineItem)
    requires k < |s|
    ensures TotalQuantity(s[k := x]) == TotalQuantity(s) - s[k].quantity + x.quantity
  {
    var n := |s|;
    if k < n - 1 {
      assert s[k := x][..n - 1] == s[..n - 1][k := x];
      TotalQuantityReplace(s[..n - 1], k, x);
    } else {
      assert s[k := x][..n - 1] == s[..n - 1];
    }
  }

  /** Replacing one line changes the subtotal by the difference of the two line totals. */
  lemma {:induction false} SubtotalReplace(s: seq<LineItem>, k: nat, x: LineItem)
    requires k < |s|
    ensures Subtotal(s[k := x]) == Subtotal(s) - LineTotal(s[k]) + LineTotal(x)
  {
    var n := |s|;
    if k < n - 1 {
      assert s[k := x][..n - 1] == s[..n - 1][k := x];
      SubtotalReplace(s[..n - 1], k, x);
    } else {
      assert s[k := x][..n - 1] == s[..n - 1];
    }
  }

  // ---------------------------------------------------------------------
  // What the operations do to the aggregates
  // ---------------------------------------------------------------------

  /** Every addToCart raises the item count by exactly one. */
  lemma AddProductCount(c: Cart, p: Product)
    ensures TotalQuantity(AddProduct(c, p).items) == TotalQuantity(c.items) + 1
  {
    var s := c.items;
    match FirstIndex(s, p.id)
    case Some(k) =>
      var bumped := s[k].(quantity := s[k].quantity + 1);
      assert AddProduct(c, p).items == s[k := bumped];
      TotalQuantityReplace(s, k, bumped);
    case None =>
      var t := s + [NewLine(p)];
      assert AddProduct(c, p).items == t;
      assert t[..|t| - 1] == s;
  }

  /** One more unit adds one unit price to the line total. */
  lemma LineTotalOneMore(l: LineItem)
    ensures LineTotal(l.(quantity := l.quantity + 1)) == LineTotal(l) + l.price
  {
    assert l.price * (l.quantity as real + 1.0) == l.price * l.quantity as real + l.price;
  }

  /**
   * Every addToCart raises the subtotal by one unit's price: the price the
   * line was snapshotted with if the product is already in the cart, the
   * product's current price otherwise.
   */
  lemma AddProductSubtotal(c: Cart, p: Product)
    ensures Subtotal(AddProduct(c, p).items) == Subtotal(c.items) +
      match FirstIndex(c.items, p.id)
      case Some(k) => c.items[k].price
      case None => p.price
  {
    match FirstIndex(c.items, p.id)
    case Some(k) =>
      BumpSubtotal(c.items, k);
    case None =>
      assert AddProduct(c, p).items == c.items + [NewLine(p)];
      AppendSubtotal(c.items, NewLine(p));
  }

  lemma BumpSubtotal(s: seq<LineItem>, k: nat)
    requires k < |s|
    ensures Subtotal(s[k := s[k].(quantity := s[k].quantity + 1)]) == Subtotal(s) + s[k].price
  {
    SubtotalReplace(s, k, s[k].(quantity := s[k].quantity + 1));
    LineTotalOneMore(s[k]);
  }

  lemma AppendSubtotal(s: seq<LineItem>, l: LineItem)
    ensures Subtotal(s + [l]) == Subtotal(s) + LineTotal(l)
  {
    assert (s + [l])[..|s + [l]| - 1] == s;
  }

  /** With every quantity at least 1, the item count is at least the number of lines. */
  lemma {:induction false} CountAtLeastLines(items: seq<LineItem>)
    requires PositiveQuantities(items)
    ensures TotalQuantity(items) >= |items|
  {
    if items != [] {
      CountAtLeastLines(items[..|items| - 1]);
    }
  }

  /** An empty cart counts zero items and totals zero. */
  lemma EmptyCartAggregates()
    ensures TotalQuantity(EmptyCart.items) == 0
    ensures CartTotals(EmptyCart.items) == Totals(0.0, 0.0, 0.0, 0.0)
  {
  }

  /** The published tax is ten percent of the subtotal, shipping is free, and the total is the subtotal plus tax. */
  lemma TotalIsSubtotalPlusTax(items: seq<LineItem>)
    ensures CartTotals(items).tax == CartTotals(items).subtotal / 10.0
    ensures CartTotals(items).shipping == 0.0
    ensures CartTotals(items).total == CartTotals(items).subtotal * 1.1
  {
  }

  /** With no negative price and no negative quantity, the subtotal is non-negative and the total never below it. */
  lemma {:induction false} SubtotalNonNegative(items: seq<LineItem>)
    requires forall i :: 0 <= i < |items| ==> items[i].price >= 0.0 && items[i].quantity >= 0
    ensures CartTotals(items).subtotal >= 0.0
    ensures CartTotals(items).total >= CartTotals(items).subtotal
  {
    if items != [] {
      SubtotalNonNegative(items[..|items| - 1]);
      var l := items[|items| - 1];
      assert LineTotal(l) >= 0.0 by {
        assert l.price >= 0.0 && l.quantity as real >= 0.0;
      }
    }
  }

  // ---------------------------------------------------------------------
  // The cart invariant
  // ---------------------------------------------------------------------

  lemma AddProductValid(c: Cart, p: Product)
    requires Valid(c)
    ensures Valid(AddProduct(c, p))
  {
    match FirstIndex(c.items, p.id)
    case Some(k) =>
      assert AddProduct(c, p).items == c.items[k := c.items[k].(quantity := c.items[k].quantity + 1)];
      BumpKeepsValid(c.items, k);
    case None =>
      assert AddProduct(c, p).items == c.items + [NewLine(p)];
      AppendKeepsValid(c.items, NewLine(p));
  }

  /** Raising one line's quantity keeps the ids and keeps every quantity at least 1. */
  lemma BumpKeepsValid(s: seq<LineItem>, k: nat)
    requires k < |s|
    requires UniqueIds(s) && PositiveQuantities(s)
    ensures var t := s[k := s[k].(quantity := s[k].quantity + 1)];
      UniqueIds(t) && PositiveQuantities(t)
  {
    var t := s[k := s[k].(quantity := s[k].quantity + 1)];
    assert forall j :: 0 <= j < |t| ==> t[j].id == s[j].id && t[j].quantity >= s[j].quantity;
  }

  /** Appending a line with a fresh id and a positive quantity keeps the invariant. */
  lemma AppendKeepsValid(s: seq<LineItem>, l: LineItem)
    requires UniqueIds(s) && PositiveQuantities(s)
    requires !HasId(s, l.id) && l.quantity >= 1
    ensures UniqueIds(s + [l]) && PositiveQuantities(s + [l])
  {
    var t := s + [l];
    assert forall j :: 0 <= j < |s| ==> t[j] == s[j];
    assert t[|s|] == l;
  }

  lemma {:induction false} WithoutKeepsUniqueIds(items: seq<LineItem>, id: int)
    requires UniqueIds(items)
    ensures UniqueIds(Without(items, id))
  {
    if items != [] {
      var rest := items[1..];
      assert UniqueIds(rest) by {
        assert forall i :: 0 <= i < |rest| ==> rest[i] == items[i + 1];
      }
      WithoutKeepsUniqueIds(rest, id);
      var w := Without(rest, id);
      forall x | x in w
        ensures x.id != items[0].id
      {
        assert x in rest;
        var i :| 0 <= i < |rest| && rest[i] == x;
        assert items[i + 1] == x;
      }
    }
  }

  lemma RemoveValid(c: Cart, id: int)
    requires Valid(c)
    ensures Valid(Remove(c, id))
  {
    WithoutKeepsUniqueIds(c.items, id);
    var r := Remove(c, id);
    forall i | 0 <= i < |r.items|
      ensures r.items[i].quantity >= 1
    {
      assert r.items[i] in c.items;
    }
  }

  lemma UpdateQuantityValid(c: Cart, id: int, n: int)
    requires Valid(c)
    ensures Valid(UpdateQuantity(c, id, n))
  {
    if n < 1 {
      RemoveValid(c, id);
    } else {
      var r := UpdateQuantity(c, id, n);
      assert forall j :: 0 <= j < |r.items| ==> r.items[j].id == c.items[j].id;
    }
  }

  // ---------------------------------------------------------------------
  // Order and repeated addition
  // ---------------------------------------------------------------------

  /** removeFromCart keeps the other lines in their order: the filter distributes over concatenation. */
  lemma {:induction false} WithoutAppend(a: seq<LineItem>, b: seq<LineItem>, id: int)
    ensures Without(a + b, id) == Without(a, id) + Without(b, id)
  {
    if a == [] {
      assert a + b == b;
    } else {
      assert (a + b)[1..] == a[1..] + b;
      WithoutAppend(a[1..], b, id);
    }
  }

  /** The cart after `n` consecutive addToCart(p). */
  function AddTimes(c: Cart, p: Product, n: nat): Cart {
    if n == 0 then c else AddProduct(AddTimes(c, p, n - 1), p)
  }

  /** One addition to an empty cart gives the product's line with quantity 1. */
  lemma AddOnceToEmpty(p: Product, n: nat)
    requires n == 1
    ensures AddTimes(EmptyCart, p, n) == Cart([NewLine(p).(quantity := n)])
  {
    assert FirstIndex(EmptyCart.items, p.id) == None;
    assert EmptyCart.items + [NewLine(p)] == [NewLine(p)];
  }

  /** One more addition to a cart holding only the product's line bumps that line. */
  lemma AddOnceMore(p: Product, n: nat)
    requires n >= 2
    requires AddTimes(EmptyCart, p, n - 1) == Cart([NewLine(p).(quantity := n - 1)])
    ensures AddTimes(EmptyCart, p, n) == Cart([NewLine(p).(quantity := n)])
  {
    var line := [NewLine(p).(quantity := n - 1)];
    assert FirstIndex(line, p.id) == Some(0);
  }

  /** Adding the same product n times to an empty cart gives one line of quantity n. */
  lemma {:induction false} AddTimesFromEmpty(p: Product, n: nat)
    requires n >= 1
    ensures AddTimes(EmptyCart, p, n) == Cart([NewLine(p).(quantity := n)])
    decreases n, 1
  {
    if n == 1 {
      AddOnceToEmpty(p, n);
    } else {
      AddTimesFromEmptyStep(p, n);
    }
  }

  /** The inductive step of AddTimesFromEmpty, kept apart so each proof stays small. */
  lemma AddTimesFromEmptyStep(p: Product, n: nat)
    requires n >= 2
    ensures AddTimes(EmptyCart, p, n) == Cart([NewLine(p).(quantity := n)])
    decreases n, 0
  {
    AddTimesFromEmpty(p, n - 1);
    AddOnceMore(p, n);
  }
}
