/** The cart hook (hooks/useCart.ts): an ordered list of line items and a
    drawer flag, both React state that every operation replaces. The pure
    functions give the new list each operation computes; `Cart` holds the
    state and its methods replace it. */
module CartHook {
  import opened Types
  import Seqs
  import Constants

  /** `cartTotal`: the sum of price × count over the items. */
  function Total(items: seq<CartItem>): int {
    if items == [] then 0 else items[0].price * items[0].count + Total(items[1..])
  }

  /** `cartCount`: the sum of the counts. */
  function Count(items: seq<CartItem>): int {
    if items == [] then 0 else items[0].count + Count(items[1..])
  }

  /** Both sums split over a concatenation, so appending one item adds
      exactly its own amount and count. */
  lemma {:induction false} SumsAppend(a: seq<CartItem>, b: seq<CartItem>)
    ensures Total(a + b) == Total(a) + Total(b)
    ensures Count(a + b) == Count(a) + Count(b)
  {
    if a == [] {
      assert a + b == b;
    } else {
      assert (a + b)[1..] == a[1..] + b;
      SumsAppend(a[1..], b);
    }
  }

  /** Every item has a count of at least 1. */
  predicate CountsPositive(items: seq<CartItem>) {
    forall i :: 0 <= i < |items| ==> items[i].count >= 1
  }

  /** With every count at least 1, the item count is at least the number of lines. */
  lemma {:induction false} CountAtLeastLines(items: seq<CartItem>)
    requires CountsPositive(items)
    ensures Count(items) >= |items|
  {
    if items != [] {
      CountAtLeastLines(items[1..]);
    }
  }

  /** The new list of `removeFromCart(id)`. */
  function Removed(items: seq<CartItem>, id: string): (r: seq<CartItem>)
    ensures forall i :: 0 <= i < |r| ==> r[i].id != id
    ensures forall i :: 0 <= i < |items| && items[i].id != id ==> items[i] in r
    ensures Seqs.IsSubsequence(r, items)
    ensures (forall i :: 0 <= i < |items| ==> items[i].id != id) ==> r == items
    ensures forall x :: multiset(r)[x] == if x.id != id then multiset(items)[x] else 0
  {
    Seqs.FilterCounts((item: CartItem) => item.id != id, items);
    Seqs.Filter((item: CartItem) => item.id != id, items)
  }

  /** `Math.max(1, count + delta)`. */
  function ClampedCount(count: int, delta: int): (n: int)
    ensures n >= 1
    ensures n >= count + delta
    ensures n == 1 || n == count + delta
  {
    if count + delta > 1 then count + delta else 1
  }

  /** The new list of `updateQuantity(id, delta)`: each line with that id
      gets the clamped count, everything else is kept. */
  function WithQuantity(items: seq<CartItem>, id: string, delta: int): (r: seq<CartItem>)
    ensures |r| == |items|
    ensures forall i :: 0 <= i < |items| && items[i].id == id ==>
              r[i] == items[i].(count := ClampedCount(items[i].count, delta))
    ensures forall i :: 0 <= i < |items| && items[i].id != id ==> r[i] == items[i]
  {
    if items == [] then []
    else
      var head := if items[0].id == id then items[0].(count := ClampedCount(items[0].count, delta)) else items[0];
      [head] + WithQuantity(items[1..], id, delta)
  }

  /** An update keeps every count at least 1, and a decrement of any size
      leaves the updated lines at exactly 1 or above. */
  lemma WithQuantityKeepsCountsPositive(items: seq<CartItem>, id: string, delta: int)
    requires CountsPositive(items)
    ensures CountsPositive(WithQuantity(items, id, delta))
  {
  }

  /** A sequence of quantity changes, as the cart drawer's buttons issue them. */
  datatype QuantityChange = QuantityChange(id: string, delta: int)

  function ApplyChanges(items: seq<CartItem>, changes: seq<QuantityChange>): seq<CartItem>
    decreases |changes|
  {
    if changes == [] then items
    else ApplyChanges(WithQuantity(items, changes[0].id, changes[0].delta), changes[1..])
  }

  /** No sequence of increments and decrements drives a count below 1, and
      none of them adds or removes a line. */
  lemma {:induction false} ChangesKeepCountsPositive(items: seq<CartItem>, changes: seq<QuantityChange>)
    requires CountsPositive(items)
    ensures CountsPositive(ApplyChanges(items, changes))
    ensures |ApplyChanges(items, changes)| == |items|
    decreases |changes|
  {
    if changes != [] {
      WithQuantityKeepsCountsPositive(items, changes[0].id, changes[0].delta);
      ChangesKeepCountsPositive(WithQuantity(items, changes[0].id, changes[0].delta), changes[1..]);
    }
  }

  /** The example of two lines: TikTok Likes 1k at 150 once and YouTube
      Views 2k at 1200 twice make 2550 for 3 units. */
  lemma TotalExample(a: CartItem, b: CartItem)
    requires a.platform == Tiktok && a.boostType == Likes && a.quantityLabel == "1k" && a.count == 1
    requires b.platform == Youtube && b.boostType == Views && b.quantityLabel == "2k" && b.count == 2
    requires a.price == Constants.CalculatePrice(Some(a.platform), Some(a.boostType), Some(a.quantityLabel))
    requires b.price == Constants.CalculatePrice(Some(b.platform), Some(b.boostType), Some(b.quantityLabel))
    ensures Total([a, b]) == 2550 && Count([a, b]) == 3
  {
    Constants.PriceExamples();
    assert a.price == 150 && b.price == 1200;
    SumsOfTwo(a, b);
  }

  /** The sums over a cart of two lines. */
  lemma SumsOfTwo(a: CartItem, b: CartItem)
    ensures Total([a, b]) == a.price * a.count + b.price * b.count
    ensures Count([a, b]) == a.count + b.count
  {
    assert [a, b][1..] == [b];
    assert [b][1..] == [];
    assert Total([b]) == b.price * b.count && Count([b]) == b.count;
  }

  /** The hook's state: `cart` and `isOpen`. */
  class Cart {
    var items: seq<CartItem>
    var isOpen: bool

    constructor ()
      ensures items == [] && !isOpen
    {
      items := [];
      isOpen := false;
    }

    /** `cartTotal`. */
    function CartTotal(): int
      reads this
    {
      Total(items)
    }

    /** `cartCount`. */
    function CartCount(): int
      reads this
    {
      Count(items)
    }

    /** `addToCart`: the item goes at the end and the drawer opens. */
    method AddToCart(item: CartItem)
      modifies this
      ensures items == old(items) + [item] && isOpen
      ensures CartTotal() == old(CartTotal()) + item.price * item.count
      ensures CartCount() == old(CartCount()) + item.count
    {
      items := items + [item];
      isOpen := true;
      SumsAppend(old(items), [item]);
      assert [item][1..] == [];
    }

    /** `removeFromCart`. */
    method RemoveFromCart(id: string)
      modifies this
      ensures items == Removed(old(items), id) && isOpen == old(isOpen)
    {
      items := Removed(items, id);
    }

    /** `updateQuantity`. */
    method UpdateQuantity(id: string, delta: int)
      modifies this
      ensures items == WithQuantity(old(items), id, delta) && isOpen == old(isOpen)
    {
      items := WithQuantity(items, id, delta);
    }

    /** `clearCart`. */
    method ClearCart()
      modifies this
      ensures items == [] && isOpen == old(isOpen)
      ensures CartTotal() == 0 && CartCount() == 0
    {
      items := [];
    }

    /** `setIsOpen`. */
    method SetIsOpen(open: bool)
      modifies this
      ensures isOpen == open && items == old(items)
    {
      isOpen := open;
    }
  }
}
