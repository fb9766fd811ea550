/**
 * The catalogue tile (Frontend/src/components/ProductCard.jsx): its image list, its
 * wrap-around image arrows and its wishlist flag.
 */
module ProductCard {
  import opened Wrappers
  import opened ImageUrls
  import opened Display

  /** The inline "No Image" picture shown for a missing image. */
  const Placeholder: string := "data:image/svg+xml;charset=UTF-8,%3Csvg%20width%3D'400'%20height%3D'300'%20xmlns%3D'http%3A//www.w3.org/2000/svg'%3E%3Crect%20fill%3D'%23f3f4f6'%20width%3D'400'%20height%3D'300'/%3E%3Ctext%20x%3D'50%25'%20y%3D'50%25'%20dominant-baseline%3D'middle'%20text-anchor%3D'middle'%20fill%3D'%239ca3af'%20font-family%3D'Arial'%20font-size%3D'16'%3ENo%20Image%3C/text%3E%3C/svg%3E"

  /** The tile's `normalizeImageUrl`: a missing or empty reference gives the placeholder. */
  function Normalize(img: Option<string>): (url: string)
    ensures !TruthyString(img) ==> url == Placeholder
    ensures TruthyString(img) ==> url == Resolve(img.value) && IsHttpsUrl(url)
  {
    if !TruthyString(img) then Placeholder
    else
      ResolveIsHttps(img.value);
      Resolve(img.value)
  }

  /** The tile's images: every stored image normalised, or the main image alone when there are none. */
  function CardImages(images: seq<string>, mainImage: Option<string>): (r: seq<string>)
    ensures |r| >= 1
    ensures |images| > 0 ==> |r| == |images| && forall i :: 0 <= i < |images| ==> r[i] == Normalize(Some(images[i]))
    ensures |images| == 0 ==> r == [Normalize(mainImage)]
    ensures forall i :: 0 <= i < |r| ==> r[i] != ""
  {
    if |images| > 0 then seq(|images|, i requires 0 <= i < |images| => Normalize(Some(images[i])))
    else [Normalize(mainImage)]
  }

  /** The tile's arrows keep the shown image within the list, whatever the product. */
  lemma ArrowsStayInRange(images: seq<string>, mainImage: Option<string>, current: int)
    requires 0 <= current < |CardImages(images, mainImage)|
    ensures 0 <= Prev(current, |CardImages(images, mainImage)|) < |CardImages(images, mainImage)|
    ensures 0 <= Next(current, |CardImages(images, mainImage)|) < |CardImages(images, mainImage)|
    ensures 0 < |CardImages(images, mainImage)|
  {
  }

  /** `wishlist.some(item => item._id === product._id)`. */
  predicate Wishlisted(wishlist: seq<string>, productId: string)
  {
    exists i :: 0 <= i < |wishlist| && wishlist[i] == productId
  }

  lemma WishlistedIsMembership(wishlist: seq<string>, productId: string)
    ensures Wishlisted(wishlist, productId) <==> productId in wishlist
  {
  }
}
