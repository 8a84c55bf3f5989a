/** The search page: when a keyword starts a search, its add-to-cart stock guard and the
    "no results" message. */
module Search {
  import opened Wrappers
  import opened Text
  import opened CartLines
  import ProductDetails

  /** A search runs exactly when the trimmed keyword is longer than three UTF-16 code
      units. */
  predicate Triggers(keyword: string)
  {
    Utf16Length(Trim(keyword)) > 3
  }

  /** `length` counts code units: a keyword of two emoji starts a search. */
  lemma TwoEmojiTrigger()
    ensures Triggers("\U{1F600}\U{1F600}")
  {
    var k := "\U{1F600}\U{1F600}";
    assert LeadingSpaces(k) == 0;
    assert TrailingSpaces(k) == 0;
    assert Trim(k) == k[0..][..2];
    assert k[0..][..2] == k;
    AstralCountsTwice();
  }

  /** `handleAddtoCart`: the same guard as the product dialog, behind an extra non-empty
      test that changes nothing; its warning quotes the stock rather than the quantity. */
  function HandleAddToCart(items: Option<seq<CartItem>>, userId: Option<nat>, productId: string,
                           totalStock: int): (d: ProductDetails.AddDecision)
    ensures d.Dispatch? ==> d.request == AddToCartRequest(userId, productId, 1)
    ensures d.StockExceeded? ==> d.shown == totalStock
    ensures |ItemsOrEmpty(items)| == 0 || FindIndex(ItemsOrEmpty(items), productId) == -1 ==> d.Dispatch?
    ensures FindIndex(ItemsOrEmpty(items), productId) >= 0 ==>
              (d.StockExceeded? <==>
                 ItemsOrEmpty(items)[FindIndex(ItemsOrEmpty(items), productId)].quantity + 1 > totalStock)
    // the two call sites agree on when and what they send
    ensures d.Dispatch? <==> ProductDetails.HandleAddToCart(items, userId, productId, totalStock).Dispatch?
    ensures d.Dispatch? ==> d == ProductDetails.HandleAddToCart(items, userId, productId, totalStock)
  {
    var lines := ItemsOrEmpty(items);
    if |lines| > 0 && FindIndex(lines, productId) > -1
       && lines[FindIndex(lines, productId)].quantity + 1 > totalStock
    then ProductDetails.StockExceeded(totalStock)
    else ProductDetails.Dispatch(AddToCartRequest(userId, productId, 1))
  }

  /** The page's state: the keyword, the `searchTriggered` flag, the results shown and the
      keyword written to the URL. */
  class SearchPage {
    var keyword: string
    var searchTriggered: bool
    var results: seq<string>
    var urlKeyword: string

    constructor ()
      ensures keyword == "" && !searchTriggered && results == [] && urlKeyword == ""
    {
      keyword := "";
      searchTriggered := false;
      results := [];
      urlKeyword := "";
    }

    /** "No results found!" is shown exactly when a search ran and found nothing. */
    predicate ShowsNoResults()
      reads this
    {
      searchTriggered && |results| == 0
    }

    /** The keyword effect: a long enough keyword sets the flag and (after the debounce)
        asks for that keyword as typed; a short one resets the results and the flag. */
    method OnKeywordChange(k: string) returns (query: Option<string>)
      modifies this
      ensures keyword == k && urlKeyword == k
      ensures searchTriggered == Triggers(k)
      ensures query == (if Triggers(k) then Some(k) else None)
      ensures Triggers(k) ==> results == old(results)
      ensures !Triggers(k) ==> results == [] && !ShowsNoResults()
    {
      keyword := k;
      urlKeyword := k;
      if Triggers(k) {
        searchTriggered := true;
        query := Some(k);
      } else {
        results := [];
        searchTriggered := false;
        query := None;
      }
    }
  }
}
