/**
 * Product reviews (Backend/routes/reviewRoutes.js and the Review schema in
 * Backend/models/Review.js). The product check is modelled under both bindings of
 * `Product` (see ProductBinding): `CreateReview` queries the product collection the
 * route evidently intends, given as the set of existing product ids, and
 * `CreateReviewWith` adds the binding the code has.
 */
module Reviews {
  import opened Wrappers
  import opened Text
  import opened Listing
  import opened Values
  import opened ProductBinding

  datatype Review = Review(product: string, user: string, rating: real, comment: string, createdAt: int)

  /** The schema: product required; user and comment required and trimmed; rating required within 1..5. */
  function SchemaValid(r: Review): (ok: bool)
    ensures IsTrimmed(r.user) && IsTrimmed(r.comment) && 1.0 <= r.rating <= 5.0 ==>
              (ok <==> MissingPaths(r.product, r.user, r.comment) == [])
  {
    r.product != "" && r.user != "" && IsTrimmed(r.user) && r.comment != "" && IsTrimmed(r.comment)
    && 1.0 <= r.rating <= 5.0
  }

  /**
   * The required paths a new review leaves empty, in the schema's order; after the
   * route's guards only these can fail, since the rating is already within 1..5.
   */
  function MissingPaths(product: string, user: string, comment: string): (ps: seq<string>)
    ensures ps == [] <==> product != "" && user != "" && comment != ""
    ensures forall p :: p in ps <==> (p == "product" && product == "") || (p == "user" && user == "")
                                     || (p == "comment" && comment == "")
  {
    (if product == "" then ["product"] else []) + (if user == "" then ["user"] else [])
    + (if comment == "" then ["comment"] else [])
  }

  /** Mongoose's default text for one missing required path. */
  function RequiredError(path: string): string
  {
    path + ": Path `" + path + "` is required."
  }

  /** A ValidationError's message: the model name, then each path's error, joined by ", ". */
  function ValidationMessage(paths: seq<string>): (m: string)
    ensures |paths| == 1 ==> m == "Review validation failed: " + RequiredError(paths[0])
  {
    "Review validation failed: " + PathErrors(paths)
  }

  function PathErrors(paths: seq<string>): string
  {
    if paths == [] then ""
    else if |paths| == 1 then RequiredError(paths[0])
    else RequiredError(paths[0]) + ", " + PathErrors(paths[1..])
  }

  /**
   * `Number(v)`, `None` standing for NaN. Parsing a string's numeric literal is the
   * oracle `parse`; an array converts through its joined text.
   */
  function NumberOf(v: Value, parse: string -> Option<real>): (n: Option<real>)
    ensures v.Num? ==> n == Some(v.n)
    ensures v.Str? ==> n == parse(v.s)
    ensures v.Undefined? ==> n.None?
  {
    match v
    case Undefined => None
    case Null => Some(0.0)
    case Bool(b) => Some(if b then 1.0 else 0.0)
    case Num(x) => Some(x)
    case Str(s) => parse(s)
    case List(xs) => if |xs| == 0 then Some(0.0) else if |xs| == 1 then parse(xs[0]) else None
  }

  /** The body of POST `/:productId`. */
  datatype ReviewBody = ReviewBody(user: Option<string>, rating: Value, comment: Option<string>)

  /**
   * Create: missing fields (400), unknown product (404), rating outside 1..5 after
   * conversion (400), then the trimmed review; a user or comment that is blank only
   * after trimming passes the first guard and fails schema validation (500, with the
   * message naming each empty path).
   */
  function CreateReview(products: set<string>, productId: string, body: ReviewBody, parse: string -> Option<real>, now: int)
    : (r: Reply<Review>)
    ensures !TruthyString(body.user) || !Truthy(body.rating) || !TruthyString(body.comment) ==>
              r == Err(400, "User, rating, and comment are required")
    ensures TruthyString(body.user) && Truthy(body.rating) && TruthyString(body.comment) && productId !in products ==>
              r == Err(404, "Product not found")
    ensures r.Ok? ==> productId in products && SchemaValid(r.value)
    ensures r.Ok? ==> r.value.user == Trim(body.user.value) && r.value.comment == Trim(body.comment.value)
                      && Some(r.value.rating) == NumberOf(body.rating, parse) && r.value.product == productId
    ensures r.Err? && r.code == 400 && r.message == "Rating must be between 1 and 5" ==>
              var n := NumberOf(body.rating, parse); n.None? || n.value < 1.0 || n.value > 5.0
    ensures (TruthyString(body.user) && Truthy(body.rating) && TruthyString(body.comment) && productId in products
             && NumberOf(body.rating, parse).Some? && 1.0 <= NumberOf(body.rating, parse).value <= 5.0
             && !IsBlank(body.user.value) && !IsBlank(body.comment.value) && productId != "") ==> r.Ok?
    ensures r.Err? && r.code == 500 ==>
              body.user.Some? && body.comment.Some?
              && var ps := MissingPaths(productId, Trim(body.user.value), Trim(body.comment.value));
                 ps != [] && r == Err(500, ValidationMessage(ps))
  {
    if !TruthyString(body.user) || !Truthy(body.rating) || !TruthyString(body.comment) then
      Err(400, "User, rating, and comment are required")
    else if productId !in products then Err(404, "Product not found")
    else
      var n := NumberOf(body.rating, parse);
      if n.None? || n.value < 1.0 || n.value > 5.0 then Err(400, "Rating must be between 1 and 5")
      else
        var review := Review(productId, Trim(body.user.value), n.value, Trim(body.comment.value), now);
        var missing := MissingPaths(productId, review.user, review.comment);
        if missing != [] then Err(500, ValidationMessage(missing))
        else Ok(review)
  }

  /**
   * Create with `Product` bound to `b`: the field check runs first; then
   * `Product.findById` throws unless `Product` is a collection, and the `catch` answers
   * 500 with the TypeError's message.
   */
  function CreateReviewWith(b: Binding, products: set<string>, productId: string, body: ReviewBody,
                            parse: string -> Option<real>, now: int): (r: Reply<Review>)
    ensures !TruthyString(body.user) || !Truthy(body.rating) || !TruthyString(body.comment) ==>
              r == Err(400, "User, rating, and comment are required")
    ensures !HasModelMethods(b) && TruthyString(body.user) && Truthy(body.rating) && TruthyString(body.comment) ==>
              r == Err(500, "Product.findById is not a function")
    ensures HasModelMethods(b) ==> r == CreateReview(products, productId, body, parse, now)
  {
    if !HasModelMethods(b) && TruthyString(body.user) && Truthy(body.rating) && TruthyString(body.comment) then
      Err(500, "Product.findById is not a function")
    else CreateReview(products, productId, body, parse, now)
  }

  /** As imported, no review is ever stored, whatever the product set. */
  lemma AsImportedStoresNoReview(products: set<string>, productId: string, body: ReviewBody,
                                 parse: string -> Option<real>, now: int)
    ensures CreateReviewWith(AsImported, products, productId, body, parse, now).Err?
  {
  }

  /** A user name made only of spaces passes the route's guard and is refused by the schema. */
  lemma BlankUserReachesSchema(products: set<string>, productId: string, parse: string -> Option<real>, now: int)
    requires productId in products && productId != ""
    ensures CreateReview(products, productId, ReviewBody(Some("  "), Num(4.0), Some("Lovely")), parse, now)
            == Err(500, "Review validation failed: " + RequiredError("user"))
  {
    var body := ReviewBody(Some("  "), Num(4.0), Some("Lovely"));
    assert IsBlank("  ");
    assert !IsSpace("Lovely"[0]);
    assert !IsBlank("Lovely");
    var ps := MissingPaths(productId, Trim("  "), Trim("Lovely"));
    assert ps == ["user"];
    var r := CreateReview(products, productId, body, parse, now);
    assert r.Err? && r.code == 500;
  }

  function ReviewCreatedAt(r: Review): int { r.createdAt }

  function OfProduct(productId: string): Review -> bool
  {
    (r: Review) => r.product == productId
  }

  /** GET `/product/:productId`: exactly that product's reviews, newest first. */
  function ForProduct(reviews: seq<Review>, productId: string): (r: seq<Review>)
    ensures NewestFirst(r, ReviewCreatedAt)
    ensures multiset(r) == multiset(Filter(reviews, OfProduct(productId)))
    ensures forall x :: x in r <==> x in reviews && x.product == productId
  {
    var mine := Filter(reviews, OfProduct(productId));
    var sorted := SortNewestFirst(mine, ReviewCreatedAt);
    forall x ensures x in sorted <==> x in reviews && x.product == productId {
      assert x in sorted <==> x in multiset(sorted);
      assert x in mine <==> x in multiset(mine);
      assert OfProduct(productId)(x) <==> x.product == productId;
    }
    sorted
  }

  /** GET `/`: every review, newest first. */
  function AllReviews(reviews: seq<Review>): (r: seq<Review>)
    ensures NewestFirst(r, ReviewCreatedAt) && multiset(r) == multiset(reviews)
  {
    SortNewestFirst(reviews, ReviewCreatedAt)
  }

  /** DELETE `/:id`: 404 for an unknown review, otherwise exactly that review is removed. */
  function DeleteReview(reviews: map<string, Review>, id: string): (r: Reply<map<string, Review>>)
    ensures id !in reviews <==> r == Err(404, "Review not found")
    ensures r.Ok? ==> r.value.Keys == reviews.Keys - {id}
    ensures r.Ok? ==> forall k :: k in r.value ==> r.value[k] == reviews[k]
  {
    if id !in reviews then Err(404, "Review not found") else Ok(reviews - {id})
  }
}
