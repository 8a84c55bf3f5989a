/** The cart sheet: its running total and whether the checkout footer is shown. */
module CartWrapper {
  import opened Wrappers
  import opened CartLines

  /** `totalCartAmount`: zero for a missing or empty cart, else the line amounts summed. */
  function TotalCartAmount(cartItems: Option<seq<CartItem>>): (t: int)
    ensures cartItems.None? || |cartItems.value| == 0 ==> t == 0
    ensures cartItems.Some? ==> t == Total(cartItems.value)
  {
    if cartItems.Some? && |cartItems.value| > 0 then Total(cartItems.value) else 0
  }

  /** Adding a line to the cart adds exactly that line's effective price times its
      quantity, wherever the line goes. */
  lemma LineContribution(before: seq<CartItem>, x: CartItem, after: seq<CartItem>)
    ensures TotalCartAmount(Some(before + [x] + after))
            == TotalCartAmount(Some(before + after)) + EffectivePrice(x) * x.quantity
  {
    TotalAppend(before + [x], after);
    TotalAppend(before, [x]);
    TotalAppend(before, after);
    assert [x][..0] == [];
  }

  /** A positive sale price replaces the list price, even one above it. */
  lemma SalePriceMatters(x: CartItem)
    ensures TotalCartAmount(Some([x])) == (if x.salePrice > 0 then x.salePrice else x.price) * x.quantity
  {
    TotalCons(x, []);
  }

  /** The footer with the total and the checkout button. */
  predicate ShowsFooter(cartItems: Option<seq<CartItem>>)
  {
    cartItems.Some? && |cartItems.value| > 0
  }

  /** Whenever the footer is hidden the total it would show is zero. */
  lemma HiddenFooterMeansZero(cartItems: Option<seq<CartItem>>)
    ensures !ShowsFooter(cartItems) ==> TotalCartAmount(cartItems) == 0
    ensures ShowsFooter(cartItems) <==> cartItems.Some? && cartItems.value != []
  {
  }
}
