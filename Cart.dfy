/**
 * The customer's shopping cart: a list of shop items keyed by id, each
 * with a quantity, and its running total.
 */
module Cart {
  import opened Collections

  /** A shop item's payload; prices are whole currency units. */
  datatype ShopItem = ShopItem(name: string, price: int)

  /** A cart line: the item's name and price with the quantity chosen. */
  datatype CartLine = CartLine(name: string, price: int, quantity: int)

  type Lines = seq<Record<CartLine>>

  function LineTotal(l: CartLine): int { l.price * l.quantity }

  /** `cartItems.reduce((sum, item) => sum + item.price * item.quantity, 0)` */
  function CartTotal(c: Lines): (r: int)
    ensures c == [] ==> r == 0
    ensures |c| == 1 ==> r == LineTotal(c[0].data)
    decreases |c|
  {
    if c == [] then 0 else CartTotal(c[..|c| - 1]) + LineTotal(c[|c| - 1].data)
  }

  /** Lines of non-negative price and quantity never total below zero. */
  lemma {:induction false} CartTotalNonNegative(c: Lines)
    requires forall i | 0 <= i < |c| :: c[i].data.price >= 0 && c[i].data.quantity >= 0
    ensures CartTotal(c) >= 0
    decreases |c|
  {
    if c != [] {
      var l := c[|c| - 1].data;
      assert l.price >= 0 && l.quantity >= 0;
      assert LineTotal(l) >= 0;
      CartTotalNonNegative(c[..|c| - 1]);
    }
  }

  /** The total of a concatenation is the sum of the totals. */
  lemma {:induction false} CartTotalAppend(a: Lines, b: Lines)
    ensures CartTotal(a + b) == CartTotal(a) + CartTotal(b)
    decreases |b|
  {
    if b == [] {
      assert a + b == a;
    } else {
      var b' := b[..|b| - 1];
      assert (a + b)[..|a + b| - 1] == a + b';
      assert (a + b)[|a + b| - 1] == b[|b| - 1];
      CartTotalAppend(a, b');
    }
  }

  /** The sum of the prices of the lines with this id. */
  function PriceSum(c: Lines, id: string): int
    decreases |c|
  {
    if c == [] then 0
    else PriceSum(c[..|c| - 1], id) + (if c[|c| - 1].id == id then c[|c| - 1].data.price else 0)
  }

  /** How many of this item the cart holds, over all its lines. */
  function Quantity(c: Lines, id: string): int
    decreases |c|
  {
    if c == [] then 0
    else Quantity(c[..|c| - 1], id) + (if c[|c| - 1].id == id then c[|c| - 1].data.quantity else 0)
  }

  /** Applies `f` to the line of every record with this id and keeps the others, in order. */
  function Retag(c: Lines, id: string, f: CartLine -> CartLine): (r: Lines)
    ensures |r| == |c|
    ensures forall i | 0 <= i < |c| ::
      r[i].id == c[i].id && r[i].data == (if c[i].id == id then f(c[i].data) else c[i].data)
    decreases |c|
  {
    if c == [] then []
    else
      var last := c[|c| - 1];
      Retag(c[..|c| - 1], id, f) + [if last.id == id then Record(id, f(last.data)) else last]
  }

  function Increment(l: CartLine): CartLine { l.(quantity := l.quantity + 1) }

  /**
   * `addToCart`: raises the quantity of the lines already holding the item
   * by one, or appends the item with quantity 1 when none does.
   */
  function AddToCart(c: Lines, item: Record<ShopItem>): (r: Lines)
    ensures HasId(c, item.id) ==> Ids(r) == Ids(c)
    ensures HasId(c, item.id) ==> |r| == |c| && forall i | 0 <= i < |c| ::
      r[i].id == c[i].id &&
      r[i].data == (if c[i].id == item.id then c[i].data.(quantity := c[i].data.quantity + 1) else c[i].data)
    ensures !HasId(c, item.id) ==> r == c + [Record(item.id, CartLine(item.data.name, item.data.price, 1))]
  {
    if HasId(c, item.id) then Retag(c, item.id, Increment)
    else c + [Record(item.id, CartLine(item.data.name, item.data.price, 1))]
  }

  /**
   * `updateCartQuantity`: a quantity of zero or less removes the item,
   * any other sets it on every line holding the item.
   */
  function UpdateCartQuantity(c: Lines, id: string, q: int): (r: Lines)
    ensures q <= 0 ==> r == RemoveId(c, id)
    ensures q > 0 ==> |r| == |c| && forall i | 0 <= i < |c| ::
      r[i] == (if c[i].id == id then Record(id, c[i].data.(quantity := q)) else c[i])
  {
    if q <= 0 then RemoveId(c, id) else Retag(c, id, (l: CartLine) => l.(quantity := q))
  }

  /** Adding keeps ids unique, so every item has one line. */
  lemma AddToCartKeepsUnique(c: Lines, item: Record<ShopItem>)
    requires UniqueIds(c)
    ensures UniqueIds(AddToCart(c, item))
  {
    var r := AddToCart(c, item);
    if HasId(c, item.id) {
      forall i, j | 0 <= i < j < |r| ensures r[i].id != r[j].id {
        assert r[i].id == Ids(r)[i] == Ids(c)[i];
        assert r[j].id == Ids(r)[j] == Ids(c)[j];
      }
    }
  }

  /** Setting a quantity keeps the ids, so it keeps them unique. */
  lemma UpdateKeepsUnique(c: Lines, id: string, q: int)
    requires UniqueIds(c)
    ensures UniqueIds(UpdateCartQuantity(c, id, q))
  {
    if q <= 0 {
      RemoveIdKeepsUnique(c, id);
    }
  }

  /** Adding raises this item's quantity by one per line holding it (or creates it with one), and no other item's. */
  lemma {:induction false} AddToCartQuantity(c: Lines, item: Record<ShopItem>, other: string)
    ensures Quantity(AddToCart(c, item), item.id) ==
      Quantity(c, item.id) + (if HasId(c, item.id) then Count(c, item.id) else 1)
    ensures other != item.id ==> Quantity(AddToCart(c, item), other) == Quantity(c, other)
  {
    if HasId(c, item.id) {
      IncrementQuantity(c, item.id, other);
    } else {
      var line := [Record(item.id, CartLine(item.data.name, item.data.price, 1))];
      assert (c + line)[..|c + line| - 1] == c;
    }
  }

  /** The number of lines holding this id. */
  function Count(c: Lines, id: string): nat
    decreases |c|
  {
    if c == [] then 0 else Count(c[..|c| - 1], id) + (if c[|c| - 1].id == id then 1 else 0)
  }

  lemma {:induction false} IncrementQuantity(c: Lines, id: string, other: string)
    ensures Quantity(Retag(c, id, Increment), id) == Quantity(c, id) + Count(c, id)
    ensures other != id ==> Quantity(Retag(c, id, Increment), other) == Quantity(c, other)
    decreases |c|
  {
    if c != [] {
      var r := Retag(c, id, Increment);
      assert r[..|r| - 1] == Retag(c[..|c| - 1], id, Increment);
      IncrementQuantity(c[..|c| - 1], id, other);
    }
  }

  /** Adding raises the total by the item's price on every line holding it, or by its price when appended. */
  lemma {:induction false} AddToCartTotal(c: Lines, item: Record<ShopItem>)
    ensures CartTotal(AddToCart(c, item)) ==
      CartTotal(c) + (if HasId(c, item.id) then PriceSum(c, item.id) else item.data.price)
  {
    if HasId(c, item.id) {
      IncrementTotal(c, item.id);
    } else {
      var line := [Record(item.id, CartLine(item.data.name, item.data.price, 1))];
      assert (c + line)[..|c + line| - 1] == c;
    }
  }

  lemma {:induction false} IncrementTotal(c: Lines, id: string)
    ensures CartTotal(Retag(c, id, Increment)) == CartTotal(c) + PriceSum(c, id)
    decreases |c|
  {
    if c != [] {
      var r := Retag(c, id, Increment);
      assert r[..|r| - 1] == Retag(c[..|c| - 1], id, Increment);
      IncrementTotal(c[..|c| - 1], id);
      var l := c[|c| - 1].data;
      assert LineTotal(Increment(l)) == LineTotal(l) + l.price by {
        assert l.price * (l.quantity + 1) == l.price * l.quantity + l.price;
      }
    }
  }

  /** With unique ids, the per-id sums are the one matching line's price and quantity. */
  lemma {:induction false} UniqueLineSums(c: Lines, k: nat)
    requires UniqueIds(c) && k < |c|
    ensures PriceSum(c, c[k].id) == c[k].data.price
    ensures Quantity(c, c[k].id) == c[k].data.quantity
    ensures Count(c, c[k].id) == 1
    decreases |c|
  {
    var init := c[..|c| - 1];
    if k < |c| - 1 {
      assert c[k] == init[k];
      UniqueLineSums(init, k);
    } else {
      AbsentSums(init, c[k].id);
    }
  }

  lemma {:induction false} AbsentSums(c: Lines, id: string)
    requires !HasId(c, id)
    ensures PriceSum(c, id) == 0 && Quantity(c, id) == 0 && Count(c, id) == 0
    decreases |c|
  {
    if c != [] {
      var init := c[..|c| - 1];
      assert forall i | 0 <= i < |init| :: init[i] == c[i];
      AbsentSums(init, id);
    }
  }

  /** With unique ids, adding an item already in the cart adds its line's price to the total and one to its quantity. */
  lemma AddExistingLine(c: Lines, item: Record<ShopItem>, k: nat)
    requires UniqueIds(c) && k < |c| && c[k].id == item.id
    ensures CartTotal(AddToCart(c, item)) == CartTotal(c) + c[k].data.price
    ensures Quantity(AddToCart(c, item), item.id) == c[k].data.quantity + 1
  {
    UniqueLineSums(c, k);
    AddToCartTotal(c, item);
    AddToCartQuantity(c, item, item.id);
  }

  /** Every line holds at least one item. */
  predicate PositiveQuantities(c: Lines)
  {
    forall i | 0 <= i < |c| :: c[i].data.quantity >= 1
  }

  /** Adding keeps every quantity positive. */
  lemma AddKeepsPositive(c: Lines, item: Record<ShopItem>)
    requires PositiveQuantities(c)
    ensures PositiveQuantities(AddToCart(c, item))
  {
    if HasId(c, item.id) {
      var r := Retag(c, item.id, Increment);
      assert forall i | 0 <= i < |r| :: r[i].data.quantity >= c[i].data.quantity;
    }
  }

  /** Removing keeps every quantity positive. */
  lemma RemoveKeepsPositive(c: Lines, id: string)
    requires PositiveQuantities(c)
    ensures PositiveQuantities(RemoveId(c, id))
  {
    var r := RemoveId(c, id);
    forall i | 0 <= i < |r| ensures r[i].data.quantity >= 1 {
      assert r[i] in c;
    }
  }

  /** Updating keeps every quantity positive, since a quantity below one removes the item. */
  lemma UpdateKeepsPositive(c: Lines, id: string, q: int)
    requires PositiveQuantities(c)
    ensures PositiveQuantities(UpdateCartQuantity(c, id, q))
  {
    if q <= 0 {
      RemoveKeepsPositive(c, id);
    }
  }
}
