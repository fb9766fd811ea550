/**
 * The reviews panel under a product (Frontend/src/components/Review.jsx): the rating
 * histogram, the summary line, and the add-review form with its client-side checks.
 */
module ReviewWidget {
  import opened Wrappers
  import opened Text
  import opened Values
  import opened Display
  import Reviews

  /** How many ratings are exactly `r`. */
  function CountRating(ratings: seq<real>, r: real): (n: nat)
    ensures n <= |ratings|
  {
    if ratings == [] then 0 else (if ratings[0] == r then 1 else 0) + CountRating(ratings[1..], r)
  }

  /** `ratingCount`: entry `k` counts the ratings equal to `5 - k`, for the rows 5, 4, 3, 2, 1. */
  function Histogram(ratings: seq<real>): (h: seq<nat>)
    ensures |h| == 5
    ensures forall k :: 0 <= k < 5 ==> h[k] == CountRating(ratings, (5 - k) as real)
  {
    seq(5, k requires 0 <= k < 5 => CountRating(ratings, (5 - k) as real))
  }

  function HistogramSum(h: seq<nat>): nat
    requires |h| == 5
  {
    h[0] + h[1] + h[2] + h[3] + h[4]
  }

  predicate WholeStar(r: real)
  {
    r == 1.0 || r == 2.0 || r == 3.0 || r == 4.0 || r == 5.0
  }

  /** The rows count every review exactly once when every rating is a whole number of stars, and never more than all reviews. */
  lemma {:induction false} HistogramCountsAll(ratings: seq<real>)
    ensures HistogramSum(Histogram(ratings)) <= |ratings|
    ensures (forall i :: 0 <= i < |ratings| ==> WholeStar(ratings[i])) ==> HistogramSum(Histogram(ratings)) == |ratings|
  {
    if ratings != [] {
      HistogramCountsAll(ratings[1..]);
      var h := Histogram(ratings);
      var t := Histogram(ratings[1..]);
      assert forall k :: 0 <= k < 5 ==> h[k] == (if ratings[0] == (5 - k) as real then 1 else 0) + t[k];
    }
  }

  /** The summary: the number of reviews and the mean to one decimal, 0 when there are none. */
  function Summary(ratings: seq<real>): (s: (nat, real))
    ensures s.0 == |ratings|
    ensures |ratings| == 0 ==> s.1 == 0.0
    ensures |ratings| > 0 ==> s.1 == Fixed1(Average(ratings))
  {
    (|ratings|, if |ratings| > 0 then Fixed1(Average(ratings)) else 0.0)
  }

  /** The summary's mean of ratings in 1..5 stays within 1..5. */
  lemma SummaryInRange(ratings: seq<real>)
    requires |ratings| > 0
    requires forall i :: 0 <= i < |ratings| ==> 1.0 <= ratings[i] <= 5.0
    ensures 1.0 <= Summary(ratings).1 <= 5.0
  {
    AverageInRange(ratings);
    var a := Average(ratings);
    var n := Round(a * 10.0);
    assert 10 <= n <= 50;
  }

  /** The form's fields. */
  datatype Form = Form(user: string, comment: string, rating: int)

  const EmptyForm: Form := Form("", "", 5)

  /** What pressing "submit" does. */
  datatype Submission = LogInFirst | FillAllFields | Post(body: Reviews.ReviewBody)

  /** `handleAddReview`: login first; the trimmed user and comment must be non-empty; the trimmed values are posted. */
  function AddReview(loggedIn: bool, f: Form): (s: Submission)
    ensures !loggedIn <==> s == LogInFirst
    ensures loggedIn && (IsBlank(f.user) || IsBlank(f.comment)) ==> s == FillAllFields
    ensures s.Post? <==> loggedIn && !IsBlank(f.user) && !IsBlank(f.comment)
    ensures s.Post? ==> s.body == Reviews.ReviewBody(Some(Trim(f.user)), Num(f.rating as real), Some(Trim(f.comment)))
  {
    if !loggedIn then LogInFirst
    else if Trim(f.user) == "" || Trim(f.comment) == "" then FillAllFields
    else Post(Reviews.ReviewBody(Some(Trim(f.user)), Num(f.rating as real), Some(Trim(f.comment))))
  }

  /** After the post: success empties the form with five stars preselected; a failure keeps what was typed. */
  function AfterPost(f: Form, accepted: bool): (g: Form)
    ensures accepted ==> g.user == "" && g.comment == "" && g.rating == 5
    ensures !accepted ==> g == f
  {
    if accepted then EmptyForm else f
  }

  /** Whatever the form lets through with a star rating from 1 to 5, the server stores for an existing product. */
  lemma FormPassesServer(f: Form, products: set<string>, productId: string, parse: string -> Option<real>, now: int)
    requires 1 <= f.rating <= 5
    requires productId in products && productId != ""
    requires AddReview(true, f).Post?
    ensures Reviews.CreateReview(products, productId, AddReview(true, f).body, parse, now).Ok?
  {
    var body := AddReview(true, f).body;
    var u, c := Trim(f.user), Trim(f.comment);
    assert body == Reviews.ReviewBody(Some(u), Num(f.rating as real), Some(c));
    TrimIdempotent(f.user);
    TrimIdempotent(f.comment);
    assert u != [] && c != [];
    assert !IsBlank(u) && !IsBlank(c);
    assert TruthyString(body.user) && TruthyString(body.comment);
    assert Truthy(body.rating);
    assert Reviews.NumberOf(body.rating, parse) == Some(f.rating as real);
    assert 1.0 <= f.rating as real <= 5.0;
    assert TruthyString(body.user) && Truthy(body.rating) && TruthyString(body.comment) && productId in products
           && Reviews.NumberOf(body.rating, parse).Some? && 1.0 <= Reviews.NumberOf(body.rating, parse).value <= 5.0
           && !IsBlank(body.user.value) && !IsBlank(body.comment.value) && productId != "";
  }
}
