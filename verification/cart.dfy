/** `calculateTotalPrice` of routes/services/cart_total_salary.js over integer amounts (e.g. cents). */
module Cart {

  datatype CartItem = CartItem(productPrice: int, quantity: int)

  /** What one cart line contributes. */
  function LineAmount(item: CartItem): int {
    item.productPrice * item.quantity
  }

  predicate NonNegative(items: seq<CartItem>) {
    forall k :: 0 <= k < |items| ==> items[k].productPrice >= 0 && items[k].quantity >= 0
  }

  /** `items.reduce((total, item) => total + item.productPrice * item.quantity, 0)`:
      the left fold from 0, the last item added last. */
  function Total(items: seq<CartItem>): (total: int)
    ensures NonNegative(items) ==> total >= 0
  {
    if |items| == 0 then 0
    else
      var init := items[..|items| - 1];
      assert NonNegative(items) ==> NonNegative(init);
      Total(init) + LineAmount(items[|items| - 1])
  }

  /** The sum of the line amounts, taken from the front: the reference the fold is checked against. */
  function SumOfLines(items: seq<CartItem>): int {
    if |items| == 0 then 0 else LineAmount(items[0]) + SumOfLines(items[1..])
  }

  /** The loop `reduce` runs. */
  method CalculateTotalPrice(cartItems: seq<CartItem>) returns (total: int)
    ensures total == SumOfLines(cartItems)
  {
    total := 0;
    var i := 0;
    while i < |cartItems|
      invariant 0 <= i <= |cartItems|
      invariant total == Total(cartItems[..i])
    {
      assert cartItems[..i + 1][..i] == cartItems[..i];
      total := total + LineAmount(cartItems[i]);
      i := i + 1;
    }
    assert cartItems[..i] == cartItems;
    TotalIsSumOfLines(cartItems);
  }

  /** The empty cart totals 0 and a one-line cart totals its line. */
  lemma TotalOfSmallCarts(item: CartItem)
    ensures Total([]) == 0
    ensures Total([item]) == item.productPrice * item.quantity
  {
  }

  /** The carts of the unit tests: three lines totalling 60, and a zero-quantity line adding nothing. */
  lemma ExampleCarts()
    ensures Total([CartItem(10, 2), CartItem(20, 1), CartItem(5, 4)]) == 60
    ensures Total([CartItem(10, 0), CartItem(20, 1)]) == 20
  {
    TotalAppend([CartItem(10, 2), CartItem(20, 1)], CartItem(5, 4));
    TotalAppend([CartItem(10, 2)], CartItem(20, 1));
    TotalAppend([CartItem(10, 0)], CartItem(20, 1));
  }

  /** Appending an item adds exactly its line amount. */
  lemma TotalAppend(items: seq<CartItem>, item: CartItem)
    ensures Total(items + [item]) == Total(items) + item.productPrice * item.quantity
  {
  }

  /** The total of two carts put together is the sum of their totals. */
  lemma {:induction false} TotalConcat(a: seq<CartItem>, b: seq<CartItem>)
    ensures Total(a + b) == Total(a) + Total(b)
    decreases |b|
  {
    if |b| == 0 {
      assert a + b == a;
    } else {
      var init := b[..|b| - 1];
      var last := b[|b| - 1];
      assert b == init + [last];
      assert a + b == (a + init) + [last];
      TotalConcat(a, init);
      TotalAppend(a + init, last);
      TotalAppend(init, last);
    }
  }

  /** The left fold and the sum from the front agree. */
  lemma {:induction false} TotalIsSumOfLines(items: seq<CartItem>)
    ensures Total(items) == SumOfLines(items)
    decreases |items|
  {
    if |items| > 0 {
      assert items == [items[0]] + items[1..];
      TotalConcat([items[0]], items[1..]);
      TotalIsSumOfLines(items[1..]);
    }
  }
}
