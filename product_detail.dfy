/**
 * The product page (Frontend/src/components/ProductDetail.jsx): its image list, the
 * in-cart test, the add-to-cart guards and the rating refresh from the review list.
 */
module ProductDetail {
  import opened Wrappers
  import opened ImageUrls
  import opened Display
  import ProductCard
  import Cart

  /** The page's `normalizeImageUrl`: a missing or empty reference gives no URL. */
  function Normalize(img: Option<string>): (url: Option<string>)
    ensures url.None? <==> !TruthyString(img)
    ensures url.Some? ==> url.value == Resolve(img.value)
  {
    if !TruthyString(img) then None else Some(Resolve(img.value))
  }

  /** `.map(normalizeImageUrl).filter(Boolean)`: the resolved URLs of the non-empty references, in order. */
  function ResolvedPresent(refs: seq<string>): (r: seq<string>)
    ensures |r| <= |refs|
    ensures forall i :: 0 <= i < |r| ==> IsHttpsUrl(r[i])
  {
    if refs == [] then []
    else
      var head := Normalize(Some(refs[0]));
      if head.Some? then
        ResolveIsHttps(refs[0]);
        [head.value] + ResolvedPresent(refs[1..])
      else ResolvedPresent(refs[1..])
  }

  lemma {:induction false} ResolvedPresentAll(refs: seq<string>)
    requires forall i :: 0 <= i < |refs| ==> refs[i] != ""
    ensures |ResolvedPresent(refs)| == |refs|
    ensures forall i :: 0 <= i < |refs| ==> ResolvedPresent(refs)[i] == Resolve(refs[i])
  {
    if refs != [] {
      var tail := refs[1..];
      assert forall i :: 0 <= i < |tail| ==> tail[i] == refs[i + 1];
      ResolvedPresentAll(tail);
      assert Normalize(Some(refs[0])) == Some(Resolve(refs[0]));
      assert ResolvedPresent(refs) == [Resolve(refs[0])] + ResolvedPresent(tail);
    }
  }

  /** The stored images if any, else the main image if set, else nothing; normalised with blanks dropped. */
  function DetailImages(images: seq<string>, mainImage: Option<string>): (r: seq<string>)
    ensures |images| == 0 && !TruthyString(mainImage) ==> r == []
    ensures |images| == 0 && TruthyString(mainImage) ==> r == [Resolve(mainImage.value)]
    ensures |images| > 0 ==> r == ResolvedPresent(images)
  {
    var refs := if |images| > 0 then images else if TruthyString(mainImage) then [mainImage.value] else [];
    ResolvedPresent(refs)
  }

  /** Where the product has images and none of them is blank, the page and the tile show the same list. */
  lemma PageAndTileAgree(images: seq<string>, mainImage: Option<string>)
    requires |images| > 0 && forall i :: 0 <= i < |images| ==> images[i] != ""
    ensures DetailImages(images, mainImage) == ProductCard.CardImages(images, mainImage)
  {
    ResolvedPresentAll(images);
  }

  /** An entry of the cart context as the page compares it: the entry's `_id` and its `selectedSize`. */
  datatype CartEntry = CartEntry(id: string, selectedSize: Option<string>)

  /** `cart.some(item => item._id === product._id && item.selectedSize === selectedSize)`. */
  predicate IsInCart(cart: seq<CartEntry>, productId: string, selectedSize: string)
  {
    exists i :: 0 <= i < |cart| && cart[i].id == productId && cart[i].selectedSize == Some(selectedSize)
  }

  /** What pressing "Add to Cart" does. */
  datatype AddAction = LoginFirst | SelectSizeFirst | AlreadyInCart | AddItem(request: Cart.AddRequest)

  /** The guards in order: login, then a chosen size, then not yet in the cart; otherwise one piece is added. */
  function AddToCart(loggedIn: bool, cart: seq<CartEntry>, productId: string, selectedSize: string): (a: AddAction)
    ensures !loggedIn <==> a == LoginFirst
    ensures loggedIn && selectedSize == "" ==> a == SelectSizeFirst
    ensures loggedIn && selectedSize != "" && IsInCart(cart, productId, selectedSize) ==> a == AlreadyInCart
    ensures a.AddItem? <==> loggedIn && selectedSize != "" && !IsInCart(cart, productId, selectedSize)
    ensures a.AddItem? ==> a.request == Cart.AddRequest(Some(productId), Some(1), Some(selectedSize))
  {
    if !loggedIn then LoginFirst
    else if selectedSize == "" then SelectSizeFirst
    else if IsInCart(cart, productId, selectedSize) then AlreadyInCart
    else AddItem(Cart.AddRequest(Some(productId), Some(1), Some(selectedSize)))
  }

  /** A request the page sends for a real product always passes the cart route's guard. */
  lemma AddedItemAccepted(loggedIn: bool, cart: seq<CartEntry>, productId: string, selectedSize: string)
    requires productId != ""
    requires AddToCart(loggedIn, cart, productId, selectedSize).AddItem?
    ensures Cart.AddAccepted(AddToCart(loggedIn, cart, productId, selectedSize).request)
  {
  }

  /** The rating fields the page shows. */
  datatype RatingView = RatingView(rating: real, reviewCount: int)

  /** `onUpdateRating(reviews)`: an empty list changes nothing; otherwise the mean and the count replace the old ones. */
  function UpdateRating(p: RatingView, ratings: seq<real>): (q: RatingView)
    ensures |ratings| == 0 ==> q == p
    ensures |ratings| > 0 ==> q.reviewCount == |ratings| && q.rating == Average(ratings)
  {
    if |ratings| == 0 then p else RatingView(Average(ratings), |ratings|)
  }

  /** With the server's ratings, all in 1..5, the refreshed rating lies in 1..5 and fills at least one star. */
  lemma UpdatedRatingInRange(p: RatingView, ratings: seq<real>)
    requires |ratings| > 0
    requires forall i :: 0 <= i < |ratings| ==> 1.0 <= ratings[i] <= 5.0
    ensures 1.0 <= UpdateRating(p, ratings).rating <= 5.0
    ensures Stars(UpdateRating(p, ratings).rating)[0]
  {
    AverageInRange(ratings);
    StarsArePrefix(UpdateRating(p, ratings).rating);
  }
}
