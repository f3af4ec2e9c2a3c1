/** The review list of the product page (components/productDetail/ReviewSection.jsx): the
    average rating and its star rendering. Scores are kept in whole tenths, the precision the
    average is displayed with. */
module ReviewSection {
  import opened Wrappers

  datatype Review = Review(id: string, rating: int, title: string, content: string, author: Option<string>)

  function RatingSum(reviews: seq<Review>): int {
    if |reviews| == 0 then 0 else RatingSum(reviews[..|reviews| - 1]) + reviews[|reviews| - 1].rating
  }

  /** `calculateAverage` in tenths: 0 for no reviews, otherwise the mean rating rounded to one
      decimal, halves rounded up. */
  function AverageTenths(reviews: seq<Review>): (t: int)
    ensures |reviews| == 0 ==> t == 0
    ensures |reviews| > 0 ==>
      20 * RatingSum(reviews) - |reviews| < 2 * |reviews| * t <= 20 * RatingSum(reviews) + |reviews|
  {
    if |reviews| == 0 then 0
    else
      var n := |reviews|;
      var t := (20 * RatingSum(reviews) + n) / (2 * n);
      assert 2 * n * t <= 20 * RatingSum(reviews) + n < 2 * n * t + 2 * n;
      t
  }

  predicate RatingsInRange(reviews: seq<Review>) {
    forall i :: 0 <= i < |reviews| ==> 1 <= reviews[i].rating <= 5
  }

  lemma {:induction false} RatingSumBounds(reviews: seq<Review>)
    requires RatingsInRange(reviews)
    ensures |reviews| <= RatingSum(reviews) <= 5 * |reviews|
    decreases |reviews|
  {
    if |reviews| > 0 {
      var init := reviews[..|reviews| - 1];
      assert RatingsInRange(init) by {
        forall i | 0 <= i < |init| ensures init[i] == reviews[i] { }
      }
      RatingSumBounds(init);
    }
  }

  /** Ratings from 1 to 5 average between 1.0 and 5.0. */
  lemma AverageInRange(reviews: seq<Review>)
    requires |reviews| > 0 && RatingsInRange(reviews)
    ensures 10 <= AverageTenths(reviews) <= 50
  {
    RatingSumBounds(reviews);
    var n := |reviews|;
    var s := RatingSum(reviews);
    var t := AverageTenths(reviews);
    assert 20 * s - n < 2 * n * t <= 20 * s + n;
    assert n * 19 < n * (2 * t) by {
      assert n * (2 * t) == 2 * n * t;
    }
    CancelFactor(n, 19, 2 * t);
    assert n * (2 * t) < n * 102 by {
      assert n * (2 * t) == 2 * n * t;
    }
    CancelFactor(n, 2 * t, 102);
  }

  lemma CancelFactor(n: int, a: int, b: int)
    requires n > 0 && n * a < n * b
    ensures a < b
  {
  }

  /** The three runs of `renderStars`. */
  datatype Stars = Stars(full: int, half: bool, empty: int)

  /** `renderStars` for a score of `tenths / 10`: the whole part as full stars, a half star when
      the fraction is at least one half, and the rest of five as empty stars. */
  function RenderStars(tenths: int): (s: Stars)
    ensures 10 * s.full <= tenths < 10 * s.full + 10
    ensures s.half <==> tenths - 10 * s.full >= 5
    ensures s.full + (if s.half then 1 else 0) + s.empty == 5
  {
    var full := tenths / 10;
    var half := tenths % 10 >= 5;
    Stars(full, half, 5 - full - (if half then 1 else 0))
  }

  /** For a score between 0 and 5 every run is non-negative (so `repeat` is never asked for a
      negative count) and together they fill five places. */
  lemma StarsFitFive(tenths: int)
    requires 0 <= tenths <= 50
    ensures RenderStars(tenths).full >= 0 && RenderStars(tenths).empty >= 0
  {
  }

  /** A whole rating r gives r full stars, no half star and 5 - r empty ones. */
  lemma StarsOfWholeRating(r: int)
    ensures RenderStars(10 * r) == Stars(r, false, 5 - r)
  {
    var s := RenderStars(10 * r);
    assert 10 * s.full <= 10 * r < 10 * s.full + 10;
  }

  /** The star line of an average of valid ratings is always well formed. */
  lemma AverageStarsFitFive(reviews: seq<Review>)
    requires |reviews| > 0 && RatingsInRange(reviews)
    ensures RenderStars(AverageTenths(reviews)).full >= 1
    ensures RenderStars(AverageTenths(reviews)).empty >= 0
  {
    AverageInRange(reviews);
  }

  class ReviewList {
    var reviews: seq<Review>
    var loading: bool

    constructor()
      ensures reviews == [] && loading
    {
      reviews, loading := [], true;
    }

    /** The fetch effect: a success replaces the reviews, a failure leaves them; loading ends
        either way. */
    method Load(reply: Response<seq<Review>>)
      modifies this
      ensures reply.Ok? ==> reviews == reply.data
      ensures reply.Failed? ==> reviews == old(reviews)
      ensures !loading
    {
      if reply.Ok? {
        reviews := reply.data;
      }
      loading := false;
    }
  }
}
