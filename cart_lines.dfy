/** What every shopping page knows about a cart line, the add-to-cart request they all
    send, and the arithmetic shared by the cart sheet and the checkout page. Prices are
    whole currency units (the model has no fractions). */
module CartLines {
  import opened Wrappers

  datatype CartItem = CartItem(productId: string, title: string, image: string,
                               price: int, salePrice: int, quantity: int)

  /** `addToCart({ userId, productId, quantity })`. */
  datatype AddToCartRequest = AddToCartRequest(userId: Option<nat>, productId: string, quantity: int)

  /** `cartItems.items || []`. */
  function ItemsOrEmpty(items: Option<seq<CartItem>>): (r: seq<CartItem>)
    ensures items.Some? ==> r == items.value
    ensures items.None? ==> r == []
  {
    items.GetOr([])
  }

  /** `items.findIndex(item => item.productId === productId)`. */
  function FindIndex(items: seq<CartItem>, productId: string): (k: int)
    ensures -1 <= k < |items|
    ensures k >= 0 ==> items[k].productId == productId
                       && forall j :: 0 <= j < k ==> items[j].productId != productId
    ensures k == -1 <==> forall j :: 0 <= j < |items| ==> items[j].productId != productId
  {
    if |items| == 0 then -1
    else if items[0].productId == productId then 0
    else
      var k := FindIndex(items[1..], productId);
      assert forall j :: 1 <= j < |items| ==> items[j] == items[1..][j - 1];
      if k == -1 then -1 else k + 1
  }

  /** The price a line is charged at: the sale price when there is one. */
  function EffectivePrice(item: CartItem): (p: int)
    ensures item.salePrice > 0 ==> p == item.salePrice
    ensures item.salePrice <= 0 ==> p == item.price
  {
    if item.salePrice > 0 then item.salePrice else item.price
  }

  /** `items.reduce((sum, item) => sum + effectivePrice(item) * item.quantity, 0)`, a left
      fold. */
  function Total(items: seq<CartItem>): int
  {
    if |items| == 0 then 0
    else Total(items[..|items| - 1]) + EffectivePrice(items[|items| - 1]) * items[|items| - 1].quantity
  }

  /** The total of a concatenation is the sum of the totals. */
  lemma {:induction false} TotalAppend(a: seq<CartItem>, b: seq<CartItem>)
    ensures Total(a + b) == Total(a) + Total(b)
    decreases |b|
  {
    if |b| == 0 {
      assert a + b == a;
    } else {
      var b' := b[..|b| - 1];
      assert (a + b)[..|a + b| - 1] == a + b';
      TotalAppend(a, b');
    }
  }

  /** The total is the line amounts summed from the front. */
  lemma TotalCons(x: CartItem, rest: seq<CartItem>)
    ensures Total([x] + rest) == EffectivePrice(x) * x.quantity + Total(rest)
  {
    TotalAppend([x], rest);
    assert [x][..0] == [];
  }

  /** With non-negative prices and quantities the total is never negative. */
  lemma {:induction false} TotalNonNegative(items: seq<CartItem>)
    requires forall i :: 0 <= i < |items| ==> items[i].price >= 0 && items[i].quantity >= 0
    ensures Total(items) >= 0
  {
    if |items| > 0 {
      TotalNonNegative(items[..|items| - 1]);
      var last := items[|items| - 1];
      assert EffectivePrice(last) >= 0;
    }
  }
}
