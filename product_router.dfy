/**
 * The second product router, kept in Backend/models/Product.js. It takes multipart
 * uploads and updates documents with `findByIdAndUpdate`, so a product here is its document: a map from field names to
 * values, and an update overwrites exactly the keys it carries.
 */
module ProductRouter {
  import opened Wrappers
  import opened Text
  import opened Values
  import ProductRoutes
  import opened ProductBinding

  /**
   * A field name. The schema's fields are named by constructors; `Other` carries any
   * other name a request sends (never one of the schema's).
   */
  datatype Key =
    | Name | Price | OriginalPrice | Category | Description | Fabric | CareInstructions
    | Sizes | Colors | IsTrending | Images | MainImage | Rating | ReviewCount
    | Other(field: string)

  type Doc = map<Key, Value>

  /** A request field; an absent key reads as `undefined`. */
  function Field(m: Doc, key: Key): (v: Value)
    ensures key in m ==> v == m[key]
    ensures key !in m ==> v == Undefined
  {
    if key in m then m[key] else Undefined
  }

  /** This router's `parseList`: strings are split as in the mounted router, every other value is returned unchanged. */
  function ParseListLoose(v: Value): (r: Value)
    ensures v.Str? ==> r == List(SplitTrimmed(v.s, ','))
    ensures !v.Str? ==> r == v
  {
    if v.Str? then List(SplitTrimmed(v.s, ',')) else v
  }

  /** The two guards of create, in order. */
  function CreateCheck(body: Doc): (r: Option<string>)
    ensures !Truthy(Field(body, Name)) || !Truthy(Field(body, Price)) ==> r == Some("Name and price are required")
    ensures Truthy(Field(body, Name)) && Truthy(Field(body, Price)) && !Truthy(Field(body, Category))
            ==> r == Some("Category is required")
    ensures r.None? <==> Truthy(Field(body, Name)) && Truthy(Field(body, Price)) && Truthy(Field(body, Category))
  {
    if !Truthy(Field(body, Name)) || !Truthy(Field(body, Price)) then Some("Name and price are required")
    else if !Truthy(Field(body, Category)) then Some("Category is required")
    else None
  }

  /** `d` holds the body's name, prices, category and descriptive fields unchanged. */
  predicate CopiesBody(d: Doc, body: Doc)
  {
    && Field(d, Name) == Field(body, Name) && Field(d, Price) == Field(body, Price)
    && Field(d, Category) == Field(body, Category) && Field(d, OriginalPrice) == Field(body, OriginalPrice)
    && Field(d, Description) == Field(body, Description) && Field(d, Fabric) == Field(body, Fabric)
    && Field(d, CareInstructions) == Field(body, CareInstructions)
  }

  /** `d` holds the parsed lists, the strict isTrending flag, the uploads and zero counters. */
  predicate ComputesFields(d: Doc, body: Doc, urls: seq<string>)
  {
    && Field(d, Sizes) == ParseListLoose(Field(body, Sizes))
    && Field(d, Colors) == ParseListLoose(Field(body, Colors))
    && Field(d, IsTrending) == Bool(Field(body, IsTrending) == Str("true"))
    && Field(d, Images) == List(urls) && Field(d, MainImage) == Str(ProductRoutes.FirstOr(urls, ""))
    && Field(d, Rating) == Num(0.0) && Field(d, ReviewCount) == Num(0.0)
  }

  /** The fields create computes rather than copies. */
  predicate Computed(k: Key)
  {
    k.Sizes? || k.Colors? || k.IsTrending? || k.Images? || k.MainImage? || k.Rating? || k.ReviewCount?
  }

  /** The fields create copies from the body unchanged. */
  function CopiedFields(body: Doc): (d: Doc)
    ensures CopiesBody(d, body)
  {
    map[Name := Field(body, Name)][Price := Field(body, Price)][OriginalPrice := Field(body, OriginalPrice)]
      [Category := Field(body, Category)][Description := Field(body, Description)][Fabric := Field(body, Fabric)]
      [CareInstructions := Field(body, CareInstructions)]
  }

  /** Stores the computed fields over `copied`, keeping every other field. */
  function WithComputed(copied: Doc, body: Doc, urls: seq<string>): (d: Doc)
    ensures forall k :: !Computed(k) ==> Field(d, k) == Field(copied, k)
    ensures ComputesFields(d, body, urls)
  {
    copied
      [Sizes := ParseListLoose(Field(body, Sizes))]
      [Colors := ParseListLoose(Field(body, Colors))]
      [IsTrending := Bool(Field(body, IsTrending) == Str("true"))]
      [Images := List(urls)]
      [MainImage := Str(ProductRoutes.FirstOr(urls, ""))]
      [Rating := Num(0.0)]
      [ReviewCount := Num(0.0)]
  }

  /** Storing only computed fields keeps what was copied. */
  lemma CopiesThrough(copied: Doc, d: Doc, body: Doc)
    requires CopiesBody(copied, body)
    requires forall k :: !Computed(k) ==> Field(d, k) == Field(copied, k)
    ensures CopiesBody(d, body)
  {
    assert !Computed(Name) && !Computed(Price) && !Computed(Category) && !Computed(OriginalPrice);
    assert !Computed(Description) && !Computed(Fabric) && !Computed(CareInstructions);
  }

  /** The document create stores: isTrending only for the exact string "true", main image the first upload, counters at 0. */
  function CreatedDoc(body: Doc, urls: seq<string>): (d: Doc)
    ensures CopiesBody(d, body)
    ensures ComputesFields(d, body, urls)
  {
    var copied := CopiedFields(body);
    var d := WithComputed(copied, body, urls);
    CopiesThrough(copied, d, body);
    d
  }

  /** `updates.isTrending === "true"`. */
  function TrendingFlag(v: Value): Value
  {
    Bool(v == Str("true"))
  }

  /** `if (updates[key]) updates[key] = conv(updates[key])`: only a truthy field is converted. */
  function ConvertTruthy(m: Doc, key: Key, conv: Value -> Value): (r: Doc)
    ensures r.Keys == m.Keys
    ensures Field(r, key) == (if Truthy(Field(m, key)) then conv(Field(m, key)) else Field(m, key))
    ensures forall k :: k != key ==> Field(r, k) == Field(m, k)
  {
    if Truthy(Field(m, key)) then m[key := conv(m[key])] else m
  }

  /** The uploaded images, when there are any, override the body's images and main image. */
  function WithUploads(body: Doc, uploaded: seq<string>): (r: Doc)
    ensures r.Keys == body.Keys + (if |uploaded| > 0 then {Images, MainImage} else {})
    ensures |uploaded| > 0 ==> Field(r, Images) == List(uploaded) && Field(r, MainImage) == Str(uploaded[0])
    ensures forall k :: (|uploaded| == 0 || (k != Images && k != MainImage)) ==> Field(r, k) == Field(body, k)
  {
    if |uploaded| > 0 then body[Images := List(uploaded)][MainImage := Str(uploaded[0])] else body
  }

  /** The update object after uploads and conversions; `uploaded` is empty when no file came. */
  function Updates(body: Doc, uploaded: seq<string>): (u: Doc)
    ensures u.Keys == body.Keys + (if |uploaded| > 0 then {Images, MainImage} else {})
  {
    ConvertTruthy(ConvertTruthy(ConvertTruthy(WithUploads(body, uploaded), Sizes, ParseListLoose), Colors, ParseListLoose),
                  IsTrending, TrendingFlag)
  }

  /** The three conversions change only sizes, colors and isTrending, each only when truthy. */
  lemma ConversionsFields(w: Doc)
    ensures var u := ConvertTruthy(ConvertTruthy(ConvertTruthy(w, Sizes, ParseListLoose), Colors, ParseListLoose),
                                   IsTrending, TrendingFlag);
            && Field(u, Images) == Field(w, Images) && Field(u, MainImage) == Field(w, MainImage)
            && Field(u, Sizes) == (if Truthy(Field(w, Sizes)) then ParseListLoose(Field(w, Sizes)) else Field(w, Sizes))
            && Field(u, Colors) == (if Truthy(Field(w, Colors)) then ParseListLoose(Field(w, Colors)) else Field(w, Colors))
            && Field(u, IsTrending) ==
                 (if Truthy(Field(w, IsTrending)) then TrendingFlag(Field(w, IsTrending)) else Field(w, IsTrending))
  {
    var s := ConvertTruthy(w, Sizes, ParseListLoose);
    var c := ConvertTruthy(s, Colors, ParseListLoose);
    var u := ConvertTruthy(c, IsTrending, TrendingFlag);
    assert Field(u, Images) == Field(c, Images) == Field(s, Images) == Field(w, Images);
    assert Field(u, MainImage) == Field(c, MainImage) == Field(s, MainImage) == Field(w, MainImage);
    assert Field(u, Sizes) == Field(c, Sizes);
    assert Field(u, Colors) == Field(c, Colors);
    assert Field(c, IsTrending) == Field(s, IsTrending) == Field(w, IsTrending);
  }

  /**
   * What an update writes: the uploaded images when files came; sizes and colors parsed
   * and isTrending compared with "true" only when truthy; every other key as sent.
   */
  lemma UpdatesFields(body: Doc, uploaded: seq<string>)
    ensures |uploaded| > 0 ==> Field(Updates(body, uploaded), Images) == List(uploaded)
                               && Field(Updates(body, uploaded), MainImage) == Str(uploaded[0])
    ensures |uploaded| == 0 ==> Field(Updates(body, uploaded), Images) == Field(body, Images)
                                && Field(Updates(body, uploaded), MainImage) == Field(body, MainImage)
    ensures Field(Updates(body, uploaded), Sizes) ==
              (if Truthy(Field(body, Sizes)) then ParseListLoose(Field(body, Sizes)) else Field(body, Sizes))
    ensures Field(Updates(body, uploaded), Colors) ==
              (if Truthy(Field(body, Colors)) then ParseListLoose(Field(body, Colors)) else Field(body, Colors))
    ensures Field(Updates(body, uploaded), IsTrending) ==
              (if Truthy(Field(body, IsTrending)) then TrendingFlag(Field(body, IsTrending)) else Field(body, IsTrending))
  {
    var w := WithUploads(body, uploaded);
    ConversionsFields(w);
    assert Field(w, Sizes) == Field(body, Sizes) && Field(w, Colors) == Field(body, Colors);
    assert Field(w, IsTrending) == Field(body, IsTrending);
  }

  /** An update leaves every field it does not carry as it was. */
  lemma UpdateKeepsOtherFields(doc: Doc, body: Doc, uploaded: seq<string>, k: Key)
    requires k in doc && k !in body && (|uploaded| == 0 || (k != Images && k != MainImage))
    ensures (doc + Updates(body, uploaded))[k] == doc[k]
  {
  }

  /** The collection this router writes. */
  class DocStore {
    var docs: map<string, Doc>

    constructor ()
      ensures docs == map[]
    {
      docs := map[];
    }

    /**
     * POST `/`: the two guards, the upload loop over the files, then the new document.
     * `new Product(...)` on the router throws; `thrown` is that error's message, which
     * depends on the Express version.
     */
    method Create(binding: Binding, newId: string, body: Doc, files: seq<string>, upload: string -> string, thrown: string)
      returns (r: Reply<Doc>)
      requires newId !in docs
      modifies this
      ensures CreateCheck(body).Some? ==> r == Err(400, CreateCheck(body).value) && docs == old(docs)
      ensures CreateCheck(body).None? && !HasModelMethods(binding) ==> r == Err(500, thrown) && docs == old(docs)
      ensures CreateCheck(body).None? && HasModelMethods(binding) ==>
                var d := CreatedDoc(body, ProductRoutes.Uploaded(files, upload));
                docs == old(docs)[newId := d] && r == Ok(d)
    {
      var check := CreateCheck(body);
      if check.Some? {
        return Err(400, check.value);
      }
      var images := ProductRoutes.UploadAll(files, upload);
      if !HasModelMethods(binding) {
        return Err(500, thrown);
      }
      var d := CreatedDoc(body, images);
      docs := docs[newId := d];
      r := Ok(d);
    }

    /** PUT `/:id`: build the update object step by step, then apply it; 404 for an unknown id. */
    method Update(binding: Binding, id: string, body: Doc, files: seq<string>, upload: string -> string)
      returns (r: Reply<Doc>)
      modifies this
      ensures !HasModelMethods(binding) ==> r == Err(500, "Product.findByIdAndUpdate is not a function") && docs == old(docs)
      ensures HasModelMethods(binding) && id !in old(docs) ==> r == Err(404, "Product not found") && docs == old(docs)
      ensures HasModelMethods(binding) && id in old(docs) ==>
                var d := old(docs)[id] + Updates(body, ProductRoutes.Uploaded(files, upload));
                docs == old(docs)[id := d] && r == Ok(d)
    {
      var uploaded: seq<string> := [];
      if |files| > 0 {
        uploaded := ProductRoutes.UploadAll(files, upload);
      }
      var updates := WithUploads(body, uploaded);
      updates := ConvertTruthy(updates, Sizes, ParseListLoose);
      updates := ConvertTruthy(updates, Colors, ParseListLoose);
      updates := ConvertTruthy(updates, IsTrending, TrendingFlag);
      if !HasModelMethods(binding) {
        return Err(500, "Product.findByIdAndUpdate is not a function");
      }
      if id !in docs {
        return Err(404, "Product not found");
      }
      var d := docs[id] + updates;
      docs := docs[id := d];
      r := Ok(d);
    }

    /** DELETE `/:id`: removes the document, or 404 when there is none. */
    method Delete(binding: Binding, id: string) returns (r: Reply<string>)
      modifies this
      ensures !HasModelMethods(binding) ==> r == Err(500, "Product.findByIdAndDelete is not a function") && docs == old(docs)
      ensures HasModelMethods(binding) && id !in old(docs) ==> r == Err(404, "Product not found") && docs == old(docs)
      ensures HasModelMethods(binding) && id in old(docs) ==> docs == old(docs) - {id} && r == Ok("Product deleted successfully")
    {
      if !HasModelMethods(binding) {
        return Err(500, "Product.findByIdAndDelete is not a function");
      }
      if id !in docs {
        return Err(404, "Product not found");
      }
      docs := docs - {id};
      r := Ok("Product deleted successfully");
    }
  }
}
