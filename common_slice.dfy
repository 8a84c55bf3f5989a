/** The feature-image slice: the carousel images the home page shows and the admin
    dashboard manages. */
module CommonSlice {
  import opened Wrappers

  datatype FeatureImage = FeatureImage(id: string, image: string)

  /** `list.filter(img => img._id !== id)`. */
  function Without(list: seq<FeatureImage>, id: string): (r: seq<FeatureImage>)
    ensures |r| <= |list|
    ensures forall x :: x in r <==> x in list && x.id != id
  {
    if |list| == 0 then []
    else if list[0].id == id then Without(list[1..], id)
    else [list[0]] + Without(list[1..], id)
  }

  /** Filtering works piece by piece, so the kept images keep their order. */
  lemma {:induction false} WithoutAppend(a: seq<FeatureImage>, b: seq<FeatureImage>, id: string)
    ensures Without(a + b, id) == Without(a, id) + Without(b, id)
    decreases |a|
  {
    if |a| == 0 {
      assert a + b == b;
    } else {
      var ab := a + b;
      assert ab[0] == a[0] && ab[1..] == a[1..] + b;
      WithoutAppend(a[1..], b, id);
      if a[0].id != id {
        calc {
          Without(ab, id);
          [a[0]] + Without(a[1..] + b, id);
          [a[0]] + (Without(a[1..], id) + Without(b, id));
          ([a[0]] + Without(a[1..], id)) + Without(b, id);
        }
      } else {
        calc {
          Without(ab, id);
          Without(a[1..] + b, id);
          Without(a[1..], id) + Without(b, id);
        }
      }
    }
  }

  /** Deleting twice is deleting once. */
  lemma {:induction false} WithoutIdempotent(list: seq<FeatureImage>, id: string)
    ensures Without(Without(list, id), id) == Without(list, id)
    decreases |list|
  {
    if |list| > 0 {
      WithoutIdempotent(list[1..], id);
      if list[0].id != id {
        assert ([list[0]] + Without(list[1..], id))[1..] == Without(list[1..], id);
      }
    }
  }

  /** Deleting an id no image has changes nothing. */
  lemma {:induction false} WithoutAbsent(list: seq<FeatureImage>, id: string)
    requires forall i :: 0 <= i < |list| ==> list[i].id != id
    ensures Without(list, id) == list
    decreases |list|
  {
    if |list| > 0 {
      WithoutAbsent(list[1..], id);
      assert [list[0]] + list[1..] == list;
    }
  }

  /** The slice's state. */
  class FeatureState {
    var isLoading: bool
    var featureImageList: seq<FeatureImage>

    constructor ()
      ensures !isLoading && featureImageList == []
    {
      isLoading := false;
      featureImageList := [];
    }

    method FetchPending()
      modifies this`isLoading
      ensures isLoading
    {
      isLoading := true;
    }

    method FetchFulfilled(data: seq<FeatureImage>)
      modifies this
      ensures !isLoading && featureImageList == data
    {
      isLoading := false;
      featureImageList := data;
    }

    method FetchRejected()
      modifies this
      ensures !isLoading && featureImageList == []
    {
      isLoading := false;
      featureImageList := [];
    }

    /** `unshift`: a new image goes in front, the rest keep their order; no data, no
        change. The loading flag is left alone. */
    method AddFulfilled(data: Option<FeatureImage>)
      modifies this`featureImageList
      ensures data.Some? ==> featureImageList == [data.value] + old(featureImageList)
      ensures data.None? ==> featureImageList == old(featureImageList)
    {
      if data.Some? {
        featureImageList := [data.value] + featureImageList;
      }
    }

    /** A successful delete drops every image with the id; a failed one changes nothing.
        The loading flag is left alone. */
    method DeleteFulfilled(success: bool, id: string)
      modifies this`featureImageList
      ensures success ==> featureImageList == Without(old(featureImageList), id)
      ensures !success ==> featureImageList == old(featureImageList)
    {
      if success {
        featureImageList := Without(featureImageList, id);
      }
    }
  }
}
