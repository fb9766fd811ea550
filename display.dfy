/**
 * Display arithmetic shared by the storefront's components: `Math.round`, the
 * five-star strip, the average of review ratings and the wrap-around carousel index
 * (Frontend/src/components/ProductCard.jsx, ProductDetail.jsx and Review.jsx).
 */
module Display {

  /** `Math.round`: the nearest integer, halves rounded up. */
  function Round(x: real): (n: int)
    ensures n as real - 0.5 <= x < n as real + 0.5
  {
    (x + 0.5).Floor
  }

  /** `Number(x.toFixed(1))` on exact reals: the nearest tenth, halves rounded up. */
  function Fixed1(x: real): (y: real)
    ensures y - 0.05 <= x < y + 0.05
  {
    Round(x * 10.0) as real / 10.0
  }

  /** `renderStars(rating)`: five stars, star `i` filled when `i < Math.round(rating || 0)`. */
  function Stars(rating: real): (s: seq<bool>)
    ensures |s| == 5
    ensures forall i :: 0 <= i < 5 ==> (s[i] <==> i < Round(rating))
  {
    seq(5, i requires 0 <= i < 5 => i < Round(rating))
  }

  /** The filled stars are a prefix of the strip, and a rating in 1..5 rounds to that many stars, at least one. */
  lemma StarsArePrefix(rating: real)
    ensures forall i, j :: 0 <= i <= j < 5 && Stars(rating)[j] ==> Stars(rating)[i]
    ensures 0.5 <= rating ==> Stars(rating)[0]
    ensures rating < 0.5 ==> forall i :: 0 <= i < 5 ==> !Stars(rating)[i]
    ensures 4.5 <= rating ==> forall i :: 0 <= i < 5 ==> Stars(rating)[i]
  {
  }

  /** `ratings.reduce((a, r) => a + r, 0)`. */
  function SumRatings(ratings: seq<real>): real
  {
    if ratings == [] then 0.0 else ratings[0] + SumRatings(ratings[1..])
  }

  lemma {:induction false} SumRatingsBounds(ratings: seq<real>, lo: real, hi: real)
    requires forall i :: 0 <= i < |ratings| ==> lo <= ratings[i] <= hi
    ensures |ratings| as real * lo <= SumRatings(ratings) <= |ratings| as real * hi
  {
    if ratings != [] {
      SumRatingsBounds(ratings[1..], lo, hi);
    }
  }

  /** The mean rating, 0 for no reviews. */
  function Average(ratings: seq<real>): real
  {
    if |ratings| > 0 then SumRatings(ratings) / |ratings| as real else 0.0
  }

  /** The mean of ratings that all lie in 1..5 lies in 1..5 as well. */
  lemma AverageInRange(ratings: seq<real>)
    requires |ratings| > 0
    requires forall i :: 0 <= i < |ratings| ==> 1.0 <= ratings[i] <= 5.0
    ensures 1.0 <= Average(ratings) <= 5.0
  {
    SumRatingsBounds(ratings, 1.0, 5.0);
    var n := |ratings| as real;
    assert SumRatings(ratings) / n * n == SumRatings(ratings);
  }

  /** The left arrow: from the first image to the last, otherwise one back. */
  function Prev(i: int, n: int): (j: int)
    requires 0 <= i < n
    ensures 0 <= j < n
  {
    if i == 0 then n - 1 else i - 1
  }

  /** The right arrow: from the last image to the first, otherwise one on. */
  function Next(i: int, n: int): (j: int)
    requires 0 <= i < n
    ensures 0 <= j < n
  {
    if i == n - 1 then 0 else i + 1
  }

  /** The arrows step through the images cyclically, and each undoes the other. */
  lemma CarouselWraps(i: int, n: int)
    requires 0 <= i < n
    ensures Next(i, n) == (i + 1) % n
    ensures Prev(i, n) == (i - 1 + n) % n
    ensures Next(Prev(i, n), n) == i && Prev(Next(i, n), n) == i
  {
    if i == n - 1 {
      assert (i + 1) % n == n % n == 0;
    } else {
      ModOfSmall(i + 1, n);
    }
    if i == 0 {
      ModOfSmall(n - 1, n);
    } else {
      ModOfShift(i - 1, n);
    }
  }

  lemma ModOfSmall(x: int, n: int)
    requires 0 <= x < n
    ensures x % n == x
  {
  }

  lemma ModOfShift(x: int, n: int)
    requires 0 <= x < n
    ensures (x + n) % n == x
  {
    ModOfSmall(x, n);
    assert (x + n) % n == x % n;
  }
}
