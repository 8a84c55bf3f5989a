/** The product dialog: its add-to-cart stock guard, the average of the reviews, the
    blank-review guard and the dialog's own state (rating, message, open flag). */
module ProductDetails {
  import opened Wrappers
  import opened Text
  import opened Session
  import opened CartLines

  /** What pressing "Add to Cart" does: send a request, or show the stock warning with
      the number the warning quotes. */
  datatype AddDecision = Dispatch(request: AddToCartRequest) | StockExceeded(shown: int)

  /** `handleAddToCart(productId, totalStock)`: a line already in the cart may grow by one
      only while that stays within stock; a product not yet in the cart is added without
      looking at the stock. */
  function HandleAddToCart(items: Option<seq<CartItem>>, userId: Option<nat>, productId: string,
                           totalStock: int): (d: AddDecision)
    ensures d.Dispatch? ==> d.request == AddToCartRequest(userId, productId, 1)
    ensures FindIndex(ItemsOrEmpty(items), productId) == -1 ==> d.Dispatch?
    ensures FindIndex(ItemsOrEmpty(items), productId) >= 0 ==>
              var q := ItemsOrEmpty(items)[FindIndex(ItemsOrEmpty(items), productId)].quantity;
              (d.Dispatch? <==> q + 1 <= totalStock) && (d.StockExceeded? ==> d.shown == q)
  {
    var lines := ItemsOrEmpty(items);
    var k := FindIndex(lines, productId);
    if k > -1 && lines[k].quantity + 1 > totalStock then StockExceeded(lines[k].quantity)
    else Dispatch(AddToCartRequest(userId, productId, 1))
  }

  /** The add button is disabled exactly when the stock is 0. */
  predicate AddButtonEnabled(totalStock: int)
  {
    totalStock != 0
  }

  /** With no stock, only the disabled button keeps a product that is not yet in the cart
      from being requested: the handler itself would send it. */
  lemma ZeroStockGuardedByButton(items: Option<seq<CartItem>>, userId: Option<nat>, productId: string)
    ensures !AddButtonEnabled(0)
    ensures FindIndex(ItemsOrEmpty(items), productId) == -1 ==> HandleAddToCart(items, userId, productId, 0).Dispatch?
    ensures (FindIndex(ItemsOrEmpty(items), productId) >= 0
             && ItemsOrEmpty(items)[FindIndex(ItemsOrEmpty(items), productId)].quantity >= 0)
            ==> HandleAddToCart(items, userId, productId, 0).StockExceeded?
  {
  }

  datatype Review = Review(userName: string, reviewMessage: string, reviewValue: int)

  function SumOfValues(reviews: seq<Review>): int
  {
    if |reviews| == 0 then 0 else SumOfValues(reviews[..|reviews| - 1]) + reviews[|reviews| - 1].reviewValue
  }

  /** Ratings all within [lo, hi] sum to within [n * lo, n * hi]. */
  lemma {:induction false} SumBounds(reviews: seq<Review>, lo: int, hi: int)
    requires forall i :: 0 <= i < |reviews| ==> lo <= reviews[i].reviewValue <= hi
    ensures |reviews| * lo <= SumOfValues(reviews) <= |reviews| * hi
  {
    if |reviews| > 0 {
      SumBounds(reviews[..|reviews| - 1], lo, hi);
    }
  }

  /** `averageReview`: 0 without reviews, otherwise the mean of the review values. */
  function AverageReview(reviews: seq<Review>): (avg: real)
    ensures |reviews| == 0 ==> avg == 0.0
    ensures |reviews| > 0 ==> avg * (|reviews| as real) == SumOfValues(reviews) as real
  {
    if |reviews| > 0 then (SumOfValues(reviews) as real) / (|reviews| as real) else 0.0
  }

  /** The average stays within the bounds of the individual ratings. */
  lemma AverageWithinRatings(reviews: seq<Review>, lo: int, hi: int)
    requires |reviews| > 0
    requires forall i :: 0 <= i < |reviews| ==> lo <= reviews[i].reviewValue <= hi
    ensures lo as real <= AverageReview(reviews) <= hi as real
  {
    SumBounds(reviews, lo, hi);
    var n := |reviews| as real;
    assert (lo as real) * n <= SumOfValues(reviews) as real <= (hi as real) * n;
    QuotientBounds(SumOfValues(reviews) as real, n, lo as real, hi as real);
  }

  /** A quotient by a positive number keeps the bounds of its numerator, scaled back. */
  lemma QuotientBounds(s: real, n: real, lo: real, hi: real)
    requires n > 0.0 && lo * n <= s <= hi * n
    ensures lo <= s / n <= hi
  {
    var q := s / n;
    assert q * n == s;
    assert (q - lo) * n == s - lo * n;
    assert (hi - q) * n == hi * n - s;
  }

  /** A review can be sent exactly when the message is not whitespace only; the submit
      button is disabled in all other cases. */
  function CanSubmitReview(reviewMsg: string): (ok: bool)
    ensures ok <==> !AllSpace(reviewMsg)
  {
    TrimEmptyIffAllSpace(reviewMsg);
    Trim(reviewMsg) != ""
  }

  /** `addReview({ productId, userId, userName, reviewMessage, reviewValue })`. */
  datatype ReviewRequest = ReviewRequest(productId: Option<string>, userId: Option<nat>, userName: Option<string>,
                                         reviewMessage: string, reviewValue: int)

  /** The dialog's component state. */
  class ProductDetailsDialog {
    var open: bool
    var rating: int
    var reviewMsg: string

    constructor (open: bool)
      ensures this.open == open && rating == 0 && reviewMsg == ""
    {
      this.open := open;
      rating := 0;
      reviewMsg := "";
    }

    method HandleRatingChange(r: int)
      modifies this
      ensures rating == r && reviewMsg == old(reviewMsg) && open == old(open)
    {
      rating := r;
    }

    method HandleMessageChange(m: string)
      modifies this
      ensures reviewMsg == m && rating == old(rating) && open == old(open)
    {
      reviewMsg := m;
    }

    /** Closing the dialog resets the review form. */
    method HandleDialogClose()
      modifies this
      ensures !open && rating == 0 && reviewMsg == ""
    {
      open := false;
      rating := 0;
      reviewMsg := "";
    }

    /** `handleAddReview`: nothing is sent for a blank message; the message as typed (not
        trimmed) and the current rating are sent otherwise, and `success`, the server's
        verdict, resets the form. */
    method HandleAddReview(productId: Option<string>, user: Option<SessionUser>, success: bool)
      returns (sent: Option<ReviewRequest>)
      modifies this
      ensures sent.None? <==> !CanSubmitReview(old(reviewMsg))
      ensures sent.Some? ==> sent.value.reviewMessage == old(reviewMsg) && sent.value.reviewValue == old(rating)
                             && sent.value.productId == productId
                             && sent.value.userId == (if user.Some? then Some(user.value.id) else None)
                             && sent.value.userName == (if user.Some? then Some(user.value.userName) else None)
      ensures open == old(open)
      ensures sent.Some? && success ==> rating == 0 && reviewMsg == ""
      ensures (sent.None? || !success) ==> rating == old(rating) && reviewMsg == old(reviewMsg)
    {
      if !CanSubmitReview(reviewMsg) {
        return None;
      }
      var userId := if user.Some? then Some(user.value.id) else None;
      var userName := if user.Some? then Some(user.value.userName) else None;
      sent := Some(ReviewRequest(productId, userId, userName, reviewMsg, rating));
      if success {
        rating := 0;
        reviewMsg := "";
      }
    }
  }
}
