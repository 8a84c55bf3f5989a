/** The checkout page: the cart total, the two guards in front of payment, the order
    snapshot sent to the server, and the `isPaymentStart` flag. */
module Checkout {
  import opened Wrappers
  import opened Session
  import opened CartLines
  import CartWrapper

  /** The cart as the cart slice holds it: its id and its lines, when it has any. */
  datatype Cart = Cart(cartId: string, items: Option<seq<CartItem>>)

  /** `cartItems?.items`, absent when there is no cart or no item list. */
  function LinesOf(cart: Option<Cart>): (r: Option<seq<CartItem>>)
    ensures cart.None? ==> r.None?
    ensures cart.Some? ==> r == cart.value.items
  {
    if cart.Some? then cart.value.items else None
  }

  /** Whether the cart has at least one line. */
  predicate HasLines(cart: Option<Cart>)
  {
    LinesOf(cart).Some? && |LinesOf(cart).value| > 0
  }

  /** The page's `totalCartAmount`; it is the cart sheet's formula on the same lines. */
  function TotalCartAmount(cart: Option<Cart>): (t: int)
    ensures !HasLines(cart) ==> t == 0
    ensures HasLines(cart) ==> t == Total(LinesOf(cart).value)
    ensures t == CartWrapper.TotalCartAmount(LinesOf(cart))
  {
    if HasLines(cart) then Total(LinesOf(cart).value) else 0
  }

  /** An address as the address book holds it. */
  datatype Address = Address(id: string, address: string, city: string, pincode: string,
                             phone: string, notes: string)

  /** The copy of the selected address placed in the order. */
  datatype AddressInfo = AddressInfo(addressId: string, address: string, city: string,
                                     pincode: string, phone: string, notes: string)

  function AddressInfoOf(a: Address): (info: AddressInfo)
    ensures info.addressId == a.id && info.address == a.address && info.city == a.city
    ensures info.pincode == a.pincode && info.phone == a.phone && info.notes == a.notes
  {
    AddressInfo(a.id, a.address, a.city, a.pincode, a.phone, a.notes)
  }

  /** One line of the order: the charged unit price is frozen into it. */
  datatype OrderLine = OrderLine(productId: string, title: string, image: string,
                                 price: int, quantity: int)

  function LineOf(item: CartItem): OrderLine
  {
    OrderLine(item.productId, item.title, item.image, EffectivePrice(item), item.quantity)
  }

  /** `cartItems.items.map(...)`: one order line per cart line, in the same order. */
  function Snapshot(items: seq<CartItem>): (lines: seq<OrderLine>)
    ensures |lines| == |items|
    ensures forall i :: 0 <= i < |items| ==>
              lines[i].productId == items[i].productId && lines[i].title == items[i].title
              && lines[i].image == items[i].image && lines[i].quantity == items[i].quantity
              && lines[i].price == (if items[i].salePrice > 0 then items[i].salePrice else items[i].price)
  {
    if |items| == 0 then []
    else [LineOf(items[0])] + Snapshot(items[1..])
  }

  /** The sum the order lines themselves add up to. */
  function LinesTotal(lines: seq<OrderLine>): int
  {
    if |lines| == 0 then 0
    else LinesTotal(lines[..|lines| - 1]) + lines[|lines| - 1].price * lines[|lines| - 1].quantity
  }

  /** The order's lines add up to the cart total the page shows. */
  lemma {:induction false} SnapshotAddsUp(items: seq<CartItem>)
    ensures LinesTotal(Snapshot(items)) == Total(items)
    decreases |items|
  {
    if |items| > 0 {
      var init := items[..|items| - 1];
      var lines := Snapshot(items);
      assert lines[..|lines| - 1] == Snapshot(init) by {
        var s := Snapshot(init);
        assert |s| == |lines| - 1;
        forall i | 0 <= i < |s|
          ensures lines[..|lines| - 1][i] == s[i]
        {
          assert items[i] == init[i];
        }
      }
      SnapshotAddsUp(init);
    }
  }

  /** The `orderData` object. The two dates come from the clock and are left out. */
  datatype OrderData = OrderData(userId: Option<nat>, cartId: string, cartItems: seq<OrderLine>,
                                 addressInfo: AddressInfo, orderStatus: string,
                                 paymentMethod: string, paymentStatus: string,
                                 totalAmount: int, paymentId: string, payerId: string)

  datatype Attempt = EmptyCart | NoAddress | Submit(order: OrderData)

  /** `handleInitiatePaypalPayment` up to the dispatch: the empty-cart guard, then the
      address guard, then the snapshot. */
  function BuildOrder(user: Option<SessionUser>, cart: Option<Cart>, selected: Option<Address>): (a: Attempt)
    ensures a == EmptyCart <==> !HasLines(cart)
    ensures a == NoAddress <==> HasLines(cart) && selected.None?
    ensures a.Submit? ==> HasLines(cart) && selected.Some?
    ensures a.Submit? ==>
              var o := a.order;
              && o.userId == (if user.Some? then Some(user.value.id) else None)
              && o.cartId == cart.value.cartId
              && o.cartItems == Snapshot(cart.value.items.value)
              && o.addressInfo == AddressInfoOf(selected.value)
              && o.orderStatus == "pending" && o.paymentStatus == "pending"
              && o.paymentMethod == "paypal" && o.paymentId == "" && o.payerId == ""
              && o.totalAmount == TotalCartAmount(cart)
              && o.totalAmount == LinesTotal(o.cartItems)
  {
    if !HasLines(cart) then EmptyCart
    else if selected.None? then NoAddress
    else
      var items := cart.value.items.value;
      SnapshotAddsUp(items);
      Submit(OrderData(if user.Some? then Some(user.value.id) else None,
                       cart.value.cartId, Snapshot(items), AddressInfoOf(selected.value),
                       "pending", "paypal", "pending", TotalCartAmount(cart), "", ""))
  }

  /** An empty cart is reported even when no address is selected. */
  lemma EmptyCartReportedFirst(user: Option<SessionUser>, cartId: string)
    ensures BuildOrder(user, Some(Cart(cartId, Some([]))), None) == EmptyCart
    ensures BuildOrder(user, None, None) == EmptyCart
  {
  }

  /** The page's state: the selected address and whether a payment is under way. */
  class CheckoutPage {
    var selected: Option<Address>
    var isPaymentStart: bool

    constructor ()
      ensures selected.None? && !isPaymentStart
    {
      selected := None;
      isPaymentStart := false;
    }

    method SelectAddress(a: Address)
      modifies this`selected
      ensures selected == Some(a)
    {
      selected := Some(a);
    }

    /** Returns the order dispatched, if any; the flag is raised exactly when one is. */
    method InitiatePaypalPayment(user: Option<SessionUser>, cart: Option<Cart>) returns (sent: Option<OrderData>)
      modifies this`isPaymentStart
      ensures BuildOrder(user, cart, selected).Submit? ==>
                sent == Some(BuildOrder(user, cart, selected).order) && isPaymentStart
      ensures !BuildOrder(user, cart, selected).Submit? ==>
                sent.None? && isPaymentStart == old(isPaymentStart)
    {
      var attempt := BuildOrder(user, cart, selected);
      if attempt.Submit? {
        isPaymentStart := true;
        sent := Some(attempt.order);
      } else {
        sent := None;
      }
    }

    /** The dispatched order came back: a failure or a rejection lowers the flag, a
        success leaves it raised until the payment page takes over. */
    method OrderSettled(success: bool)
      modifies this`isPaymentStart
      ensures isPaymentStart == (success && old(isPaymentStart))
    {
      if !success {
        isPaymentStart := false;
      }
    }
  }
}
