/**
 * The product routes mounted by the server (Backend/routes/product.js): list parsing,
 * creation with image uploads, partial update and delete. Uploading one image to the
 * CDN is the oracle `upload(image)`, answering the hosted URL. The Product schema is
 * not part of this model: stored scalar fields keep the request's values. Each handler
 * takes the binding of `Product` (see ProductBinding); as imported, every one of them
 * reaches its `catch` and answers 500.
 */
module ProductRoutes {
  import opened Wrappers
  import opened Text
  import opened Values
  import opened ProductBinding

  /** A stored product. */
  datatype Product = Product(
    name: Value,
    price: Value,
    originalPrice: Value,
    category: Value,
    description: Value,
    fabric: Value,
    careInstructions: Value,
    sizes: seq<string>,
    colors: seq<string>,
    isTrending: Value,
    images: seq<string>,
    mainImage: string)

  /** The request body of create and update. */
  datatype ProductBody = ProductBody(
    name: Value,
    price: Value,
    originalPrice: Value,
    category: Value,
    description: Value,
    fabric: Value,
    careInstructions: Value,
    sizes: Value,
    colors: Value,
    isTrending: Value,
    images: Value)

  /** A body that sends nothing. */
  const EmptyBody := ProductBody(Undefined, Undefined, Undefined, Undefined, Undefined, Undefined, Undefined,
                                 Undefined, Undefined, Undefined, Undefined)

  /**
   * `parseList`: a string becomes its comma-separated fields, trimmed, blanks dropped;
   * an array is kept as it is; anything else becomes the empty list.
   */
  function ParseList(v: Value): (r: seq<string>)
    ensures v.Str? ==> r == SplitTrimmed(v.s, ',')
    ensures v.List? ==> r == v.items
    ensures !v.Str? && !v.List? ==> r == []
  {
    match v
    case Str(s) => SplitTrimmed(s, ',')
    case List(xs) => xs
    case _ => []
  }

  /** Writing clean fields as a comma-separated string and parsing it gives them back. */
  lemma ParseListJoin(xs: seq<string>)
    requires forall x :: x in xs ==> CleanField(x, ',')
    ensures ParseList(Str(Join(xs, ','))) == xs
  {
    SplitTrimmedJoin(xs, ',');
  }

  /**
   * What `if (images && images.length > 0) for (const img of images)` uploads: each
   * entry of an array, each character of a non-empty string, and nothing for a value
   * without a length.
   */
  function ImagesToUpload(v: Value): (r: seq<string>)
    ensures v.List? ==> r == v.items
    ensures v.Str? ==> |r| == |v.s| && forall i :: 0 <= i < |v.s| ==> r[i] == [v.s[i]]
    ensures !v.List? && !v.Str? ==> r == []
  {
    match v
    case List(xs) => xs
    case Str(s) => seq(|s|, i requires 0 <= i < |s| => [s[i]])
    case _ => []
  }

  /** The URLs the CDN answers for the images, in order. */
  function Uploaded(images: seq<string>, upload: string -> string): (r: seq<string>)
    ensures |r| == |images|
    ensures forall i :: 0 <= i < |images| ==> r[i] == upload(images[i])
  {
    seq(|images|, i requires 0 <= i < |images| => upload(images[i]))
  }

  /** The upload loop: one CDN call per image, each URL pushed in turn. */
  method UploadAll(images: seq<string>, upload: string -> string) returns (urls: seq<string>)
    ensures urls == Uploaded(images, upload)
  {
    urls := [];
    var i := 0;
    while i < |images|
      invariant 0 <= i <= |images|
      invariant |urls| == i
      invariant forall k :: 0 <= k < i ==> urls[k] == upload(images[k])
    {
      urls := urls + [upload(images[i])];
      i := i + 1;
    }
  }

  /** `imageUrls[0] || fallback`. */
  function FirstOr(urls: seq<string>, fallback: string): (s: string)
    ensures |urls| > 0 && urls[0] != "" ==> s == urls[0]
    ensures |urls| == 0 || urls[0] == "" ==> s == fallback
  {
    if |urls| > 0 && urls[0] != "" then urls[0] else fallback
  }

  /** isTrending on create: a string counts only when it is exactly "true"; anything else goes through `Boolean`. */
  function TrendingOnCreate(v: Value): (b: bool)
    ensures v.Str? ==> (b <==> v.s == "true")
    ensures !v.Str? ==> (b <==> Truthy(v))
  {
    if v.Str? then v.s == "true" else ToBoolean(v)
  }

  /** `!name || !price || !category`. */
  function CreateAccepted(b: ProductBody): (ok: bool)
    ensures b.name == Undefined || b.price == Undefined || b.category == Undefined ==> !ok
    ensures b.price == Num(0.0) || b.name == Str("") || b.category == Str("") ==> !ok
  {
    Truthy(b.name) && Truthy(b.price) && Truthy(b.category)
  }

  /** The product create stores, given the uploaded URLs. */
  function Created(b: ProductBody, urls: seq<string>): (p: Product)
    ensures p.name == b.name && p.price == b.price && p.category == b.category
    ensures p.sizes == ParseList(b.sizes) && p.colors == ParseList(b.colors)
    ensures p.isTrending == Bool(TrendingOnCreate(b.isTrending))
    ensures p.images == urls && p.mainImage == FirstOr(urls, "")
  {
    Product(b.name, b.price, b.originalPrice, b.category, b.description, b.fabric, b.careInstructions,
            ParseList(b.sizes), ParseList(b.colors), Bool(TrendingOnCreate(b.isTrending)),
            urls, FirstOr(urls, ""))
  }

  /** isTrending on update: a string means `=== "true"`, otherwise the new value `??` the old one. */
  function TrendingOnUpdate(v: Value, stored: Value): (r: Value)
    ensures v.Str? ==> r == Bool(v.s == "true")
    ensures !v.Str? && Nullish(v) ==> r == stored
    ensures !v.Str? && !Nullish(v) ==> r == v
  {
    if v.Str? then Bool(v.s == "true") else Coalesce(v, stored)
  }

  /**
   * The product after an update: every scalar keeps its old value unless the body
   * supplies a non-nullish one; sizes and colors change only when supplied truthy;
   * the images are replaced only by a non-empty upload; the main image becomes the
   * first image of the resulting list when that is non-empty, otherwise stays.
   */
  function Updated(p: Product, b: ProductBody, uploaded: seq<string>): (r: Product)
    ensures r.name == Coalesce(b.name, p.name) && r.price == Coalesce(b.price, p.price)
    ensures r.originalPrice == Coalesce(b.originalPrice, p.originalPrice)
    ensures r.category == Coalesce(b.category, p.category)
    ensures r.description == Coalesce(b.description, p.description)
    ensures r.fabric == Coalesce(b.fabric, p.fabric)
    ensures r.careInstructions == Coalesce(b.careInstructions, p.careInstructions)
    ensures r.sizes == (if Truthy(b.sizes) then ParseList(b.sizes) else p.sizes)
    ensures r.colors == (if Truthy(b.colors) then ParseList(b.colors) else p.colors)
    ensures r.isTrending == TrendingOnUpdate(b.isTrending, p.isTrending)
    ensures |ImagesToUpload(b.images)| > 0 ==> r.images == uploaded
    ensures |ImagesToUpload(b.images)| == 0 ==> r.images == p.images
    ensures r.mainImage == FirstOr(r.images, p.mainImage)
  {
    var urls := if |ImagesToUpload(b.images)| > 0 then uploaded else p.images;
    Product(Coalesce(b.name, p.name), Coalesce(b.price, p.price), Coalesce(b.originalPrice, p.originalPrice),
            Coalesce(b.category, p.category), Coalesce(b.description, p.description),
            Coalesce(b.fabric, p.fabric), Coalesce(b.careInstructions, p.careInstructions),
            if Truthy(b.sizes) then ParseList(b.sizes) else p.sizes,
            if Truthy(b.colors) then ParseList(b.colors) else p.colors,
            TrendingOnUpdate(b.isTrending, p.isTrending),
            urls, FirstOr(urls, p.mainImage))
  }

  /**
   * An update that sends nothing changes nothing except the main image, which is
   * re-derived from the stored images.
   */
  lemma UpdateWithEmptyBody(p: Product)
    ensures Updated(p, EmptyBody, []) == p.(mainImage := FirstOr(p.images, p.mainImage))
  {
  }

  /** Applying the same update twice is applying it once. */
  lemma UpdateIdempotent(p: Product, b: ProductBody, uploaded: seq<string>)
    ensures Updated(Updated(p, b, uploaded), b, uploaded) == Updated(p, b, uploaded)
  {
  }

  /** The product collection. */
  class ProductStore {
    var products: map<string, Product>

    constructor ()
      ensures products == map[]
    {
      products := map[];
    }

    /**
     * POST `/`: validate, upload the images one by one, then store the new product.
     * `new Product(...)` on the router throws; `thrown` is that error's message, which
     * depends on the Express version.
     */
    method Create(binding: Binding, newId: string, b: ProductBody, upload: string -> string, thrown: string)
      returns (r: Reply<Product>)
      requires newId !in products
      modifies this
      ensures !CreateAccepted(b) ==> r == Err(400, "Name, price, and category are required") && products == old(products)
      ensures CreateAccepted(b) && !HasModelMethods(binding) ==> r == Err(500, thrown) && products == old(products)
      ensures CreateAccepted(b) && HasModelMethods(binding) ==>
                var p := Created(b, Uploaded(ImagesToUpload(b.images), upload));
                products == old(products)[newId := p] && r == Ok(p)
    {
      if !CreateAccepted(b) {
        return Err(400, "Name, price, and category are required");
      }
      var urls := UploadAll(ImagesToUpload(b.images), upload);
      if !HasModelMethods(binding) {
        return Err(500, thrown);
      }
      var p := Created(b, urls);
      products := products[newId := p];
      r := Ok(p);
    }

    /** PUT `/:id`: 404 for an unknown product, otherwise upload any new images and merge the fields. */
    method Update(binding: Binding, id: string, b: ProductBody, upload: string -> string) returns (r: Reply<Product>)
      modifies this
      ensures !HasModelMethods(binding) ==> r == Err(500, "Product.findById is not a function") && products == old(products)
      ensures HasModelMethods(binding) && id !in old(products) ==> r == Err(404, "Product not found") && products == old(products)
      ensures HasModelMethods(binding) && id in old(products) ==>
                var p := Updated(old(products)[id], b, Uploaded(ImagesToUpload(b.images), upload));
                products == old(products)[id := p] && r == Ok(p)
    {
      if !HasModelMethods(binding) {
        return Err(500, "Product.findById is not a function");
      }
      if id !in products {
        return Err(404, "Product not found");
      }
      var urls: seq<string> := [];
      if |ImagesToUpload(b.images)| > 0 {
        urls := UploadAll(ImagesToUpload(b.images), upload);
      }
      var p := Updated(products[id], b, urls);
      products := products[id := p];
      r := Ok(p);
    }

    /** DELETE `/:id`. */
    method Delete(binding: Binding, id: string) returns (r: Reply<string>)
      modifies this
      ensures !HasModelMethods(binding) ==>
                r == Err(500, "Product.findByIdAndDelete is not a function") && products == old(products)
      ensures HasModelMethods(binding) && id !in old(products) ==> r == Err(404, "Product not found") && products == old(products)
      ensures HasModelMethods(binding) && id in old(products) ==>
                products == old(products) - {id} && r == Ok("Product deleted successfully")
    {
      if !HasModelMethods(binding) {
        return Err(500, "Product.findByIdAndDelete is not a function");
      }
      if id !in products {
        return Err(404, "Product not found");
      }
      products := products - {id};
      r := Ok("Product deleted successfully");
    }
  }
}
