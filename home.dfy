/** The shop's home page: the feature-image carousel, the category and brand shortcuts
    into the listing page, and its add-to-cart button. */
module Home {
  import opened Wrappers
  import opened Js
  import opened CartLines
  import ProductDetails

  /** The category and brand shortcuts, by id. */
  function CategoryIds(): (ids: seq<string>)
    ensures |ids| == 5
    ensures forall i, j :: 0 <= i < j < |ids| ==> ids[i] != ids[j]
  {
    ["men", "women", "kids", "accessories", "footwear"]
  }

  function BrandIds(): (ids: seq<string>)
    ensures |ids| == 6
    ensures forall i, j :: 0 <= i < j < |ids| ==> ids[i] != ids[j]
  {
    ["nike", "adidas", "puma", "levi", "zara", "h&m"]
  }

  // The carousel as written. `n` is the number of feature images.

  /** The "next" button: `(prev + 1) % n`. */
  function NextSlide(prev: Number, n: nat): Number
  {
    Rem(AddInt(prev, 1), n)
  }

  /** The "previous" button: `(prev - 1 + n) % n`. */
  function PrevSlide(prev: Number, n: nat): Number
  {
    Rem(AddInt(AddInt(prev, -1), n), n)
  }

  /** The ten-second timer: it steps forward only when there are images. */
  function AutoAdvance(prev: Number, n: nat): (r: Number)
    ensures n == 0 ==> r == prev
  {
    if n > 0 then NextSlide(prev, n) else prev
  }

  /** With images and a valid index, both buttons and the timer keep the index valid. */
  lemma StepsStayInRange(prev: int, n: nat)
    requires 0 <= prev < n
    ensures NextSlide(Finite(prev), n).Finite? && 0 <= NextSlide(Finite(prev), n).n < n
    ensures PrevSlide(Finite(prev), n).Finite? && 0 <= PrevSlide(Finite(prev), n).n < n
    ensures AutoAdvance(Finite(prev), n) == NextSlide(Finite(prev), n)
  {
  }

  /** "Previous" then "next" comes back to the same slide, and so does "next" then
      "previous". */
  lemma PrevThenNext(prev: int, n: nat)
    requires 0 <= prev < n
    ensures NextSlide(PrevSlide(Finite(prev), n), n) == Finite(prev)
    ensures PrevSlide(NextSlide(Finite(prev), n), n) == Finite(prev)
  {
    var p := if prev == 0 then n - 1 else prev - 1;
    PrevIs(prev, n, p);
    NextIs(p, n, prev);
    var q := if prev == n - 1 then 0 else prev + 1;
    NextIs(prev, n, q);
    PrevIs(q, n, prev);
  }

  lemma NextIs(prev: int, n: nat, r: int)
    requires 0 <= prev < n
    requires r == if prev == n - 1 then 0 else prev + 1
    ensures NextSlide(Finite(prev), n) == Finite(r)
  {
    assert AddInt(Finite(prev), 1) == Finite(prev + 1);
    if prev == n - 1 {
      assert (prev + 1) % n == 0;
    } else {
      assert (prev + 1) % n == prev + 1;
    }
  }

  lemma PrevIs(prev: int, n: nat, r: int)
    requires 0 <= prev < n
    requires r == if prev == 0 then n - 1 else prev - 1
    ensures PrevSlide(Finite(prev), n) == Finite(r)
  {
    assert AddInt(AddInt(Finite(prev), -1), n) == Finite(prev - 1 + n);
    if prev == 0 {
      assert (prev - 1 + n) % n == n - 1;
    } else {
      assert (prev - 1 + n) % n == prev - 1;
    }
  }

  /** The buttons lack the timer's guard: with no images either of them makes the slide
      NaN, and NaN then survives every later step, whatever the number of images. */
  lemma ButtonsWithoutImagesGiveNaN(prev: int)
    ensures NextSlide(Finite(prev), 0) == NaN
    ensures PrevSlide(Finite(prev), 0) == NaN
  {
  }

  lemma NaNIsStuck(n: nat)
    ensures NextSlide(NaN, n) == NaN && PrevSlide(NaN, n) == NaN && AutoAdvance(NaN, n) == NaN
  {
  }

  // The carousel with the timer's guard on the buttons too.

  function GuardedNext(prev: Number, n: nat): (r: Number)
    ensures n == 0 ==> r == prev
    ensures n > 0 ==> r == NextSlide(prev, n)
    ensures prev.Finite? && prev.n >= 0 ==> r.Finite? && r.n >= 0
    ensures prev.Finite? && 0 <= prev.n < n ==> r.Finite? && r.n < n
  {
    if n > 0 then NextSlide(prev, n) else prev
  }

  function GuardedPrev(prev: Number, n: nat): (r: Number)
    ensures n == 0 ==> r == prev
    ensures n > 0 ==> r == PrevSlide(prev, n)
    ensures prev.Finite? && prev.n >= 0 ==> r.Finite? && r.n >= 0
    ensures prev.Finite? && 0 <= prev.n < n ==> r.Finite? && r.n < n
  {
    if n > 0 then PrevSlide(prev, n) else prev
  }

  /** `handleAddtoCart`: always a request for one unit, with no stock check at all. */
  function HandleAddToCart(userId: Option<nat>, productId: string): (req: AddToCartRequest)
    ensures req.quantity == 1 && req.productId == productId && req.userId == userId
  {
    AddToCartRequest(userId, productId, 1)
  }

  /** The page's state: the current slide and the listing filters kept in session
      storage, as a map from section to selected ids. */
  class ShoppingHome {
    var currentSlide: Number
    var storedFilters: Option<map<string, seq<string>>>

    /** The slide is a non-negative integer, or NaN once a button was pressed without
        images. */
    predicate Valid()
      reads this
    {
      currentSlide.NaN? || currentSlide.n >= 0
    }

    constructor (storedFilters: Option<map<string, seq<string>>>)
      ensures Valid() && currentSlide == Finite(0) && this.storedFilters == storedFilters
    {
      currentSlide := Finite(0);
      this.storedFilters := storedFilters;
    }

    /** The "next" button as written: without images it makes the slide NaN. */
    method Next(n: nat)
      requires Valid()
      modifies this`currentSlide
      ensures Valid() && currentSlide == NextSlide(old(currentSlide), n)
      ensures n == 0 ==> currentSlide == NaN
      ensures old(currentSlide).Finite? && old(currentSlide).n < n ==>
                currentSlide.Finite? && currentSlide.n < n
    {
      currentSlide := NextSlide(currentSlide, n);
    }

    /** The "previous" button as written: without images it makes the slide NaN. */
    method Prev(n: nat)
      requires Valid()
      modifies this`currentSlide
      ensures Valid() && currentSlide == PrevSlide(old(currentSlide), n)
      ensures n == 0 ==> currentSlide == NaN
      ensures old(currentSlide).Finite? && old(currentSlide).n < n ==>
                currentSlide.Finite? && currentSlide.n < n
    {
      currentSlide := PrevSlide(currentSlide, n);
    }

    /** The timer keeps a NaN slide NaN and otherwise steps like "next" with images. */
    method Tick(n: nat)
      requires Valid()
      modifies this`currentSlide
      ensures Valid() && currentSlide == AutoAdvance(old(currentSlide), n)
      ensures old(currentSlide).NaN? ==> currentSlide.NaN?
    {
      currentSlide := AutoAdvance(currentSlide, n);
    }

    /** `handleNavigateToListingPage`: the stored filters become exactly one section
        holding exactly the one id; the page then navigates to the listing. */
    method NavigateToListing(id: string, section: string) returns (target: string)
      requires Valid()
      modifies this`storedFilters
      ensures Valid()
      ensures storedFilters == Some(map[section := [id]])
      ensures storedFilters.value.Keys == {section} && storedFilters.value[section] == [id]
      ensures target == "/shop/listing"
    {
      storedFilters := None;
      storedFilters := Some(map[section := [id]]);
      target := "/shop/listing";
    }
  }

  /** The home page sends a request where the product dialog would refuse one. */
  lemma HomeSkipsStockGuard(userId: Option<nat>, line: CartItem)
    requires line.quantity == 5
    ensures ProductDetails.HandleAddToCart(Some([line]), userId, line.productId, 5).StockExceeded?
    ensures HandleAddToCart(userId, line.productId).quantity == 1
  {
    assert FindIndex([line], line.productId) == 0;
  }
}
