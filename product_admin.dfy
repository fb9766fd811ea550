/**
 * The admin product form (Admin/src/pages/ProductAdmin.jsx): size toggling, colour
 * entry, main and sub-image selection with their previews, the submit payload, and
 * the reset and edit transitions. Reading a file as a data URL and creating an object
 * URL are oracles.
 */
module ProductAdmin {
  import opened Wrappers
  import opened Text
  import opened Listing

  /** A file the administrator picked; only its identity matters here. */
  datatype File = File(name: string)

  datatype AdminForm = AdminForm(
    name: string,
    price: string,
    originalPrice: string,
    category: string,
    description: string,
    fabric: string,
    careInstructions: string,
    sizes: seq<string>,
    colors: seq<string>,
    isTrending: bool,
    mainImage: Option<File>,
    subImages: seq<File>)

  const EmptyForm: AdminForm := AdminForm("", "", "", "", "", "", "", [], [], false, None, [])

  /** The size buttons: a present size is removed (every copy), an absent one appended. */
  function ToggleSize(sizes: seq<string>, s: string): (r: seq<string>)
    ensures s in sizes ==> s !in r && forall x :: x in r <==> x in sizes && x != s
    ensures s in sizes ==> IsSubsequence(r, sizes)
    ensures s in sizes ==> forall x :: multiset(r)[x] == if x == s then 0 else multiset(sizes)[x]
    ensures s !in sizes ==> r == sizes + [s]
  {
    if s in sizes then
      FilterMultiplicity(sizes, (x: string) => x != s);
      Filter(sizes, (x: string) => x != s)
    else sizes + [s]
  }

  /** Toggling twice restores the list when the size was absent, and restores membership when it was present. */
  lemma ToggleTwice(sizes: seq<string>, s: string)
    ensures s !in sizes ==> ToggleSize(ToggleSize(sizes, s), s) == sizes
    ensures forall x :: x in ToggleSize(ToggleSize(sizes, s), s) <==> x in sizes
  {
    if s !in sizes {
      var once := sizes + [s];
      assert once[..|sizes|] == sizes;
      FilterAll(sizes, (x: string) => x != s);
      FilterAppendDrop(sizes, s);
    }
  }

  lemma {:induction false} FilterAppendDrop(sizes: seq<string>, s: string)
    requires s !in sizes
    ensures Filter(sizes + [s], (x: string) => x != s) == Filter(sizes, (x: string) => x != s)
    decreases |sizes|
  {
    if sizes == [] {
      assert sizes + [s] == [s];
    } else {
      assert (sizes + [s])[1..] == sizes[1..] + [s];
      FilterAppendDrop(sizes[1..], s);
    }
  }

  /** The colours field: the text split on "," and each part trimmed, empty parts kept. */
  function ColorsOf(text: string): (r: seq<string>)
    ensures |r| == |Split(text, ',')| >= 1
    ensures forall i :: 0 <= i < |r| ==> r[i] == Trim(Split(text, ',')[i])
    ensures forall i :: 0 <= i < |r| ==> IsTrimmed(r[i]) && ',' !in r[i]
  {
    var parts := Split(text, ',');
    TrimAllFields(parts, ',');
    var r := TrimAll(parts);
    assert forall i :: 0 <= i < |r| ==> r[i] in r;
    r
  }

  /** Text typed without spaces is kept exactly: joining its colours with "," gives it back. */
  lemma ColorsKeepText(text: string)
    requires forall c :: c in text ==> !IsSpace(c)
    ensures Join(ColorsOf(text), ',') == text
  {
    var parts := Split(text, ',');
    SplitPartsFromText(text, ',');
    forall i | 0 <= i < |parts| ensures IsTrimmed(parts[i]) {
      if parts[i] != [] {
        assert parts[i][0] in parts[i] && parts[i][|parts[i]| - 1] in parts[i];
      }
    }
    TrimAllOfTrimmed(parts);
    JoinSplit(text, ',');
  }

  /** The field shows `colors.join(",")`; typing that text back gives the same colours, empty ones included. */
  lemma ColorsRoundTrip(colors: seq<string>)
    requires |colors| >= 1
    requires forall i :: 0 <= i < |colors| ==> IsTrimmed(colors[i]) && ',' !in colors[i]
    ensures ColorsOf(Join(colors, ',')) == colors
  {
    SplitJoin(colors, ',');
    TrimAllOfTrimmed(colors);
  }

  /** `arr.splice(index, 1)` on a copy: the element at `index` removed, an index past the end removing nothing. */
  function Splice<T>(s: seq<T>, index: nat): (r: seq<T>)
    ensures index < |s| ==> |r| == |s| - 1 && r == s[..index] + s[index + 1..]
    ensures index >= |s| ==> r == s
  {
    if index < |s| then s[..index] + s[index + 1..] else s
  }

  /** The images the submit sends: the main image, if any, then the sub-images in order, each read as a data URL. */
  function PayloadImages(f: AdminForm, encode: File -> string): (r: seq<string>)
    ensures |r| == (if f.mainImage.Some? then 1 else 0) + |f.subImages|
    ensures f.mainImage.Some? ==> r[0] == encode(f.mainImage.value)
    ensures forall i :: 0 <= i < |f.subImages| ==>
              r[i + (if f.mainImage.Some? then 1 else 0)] == encode(f.subImages[i])
  {
    (if f.mainImage.Some? then [encode(f.mainImage.value)] else [])
    + seq(|f.subImages|, i requires 0 <= i < |f.subImages| => encode(f.subImages[i]))
  }

  /** What the submit sends: the form's fields with `images` replaced by the data URLs. */
  datatype Payload = Payload(form: AdminForm, images: seq<string>)

  /** A stored product as the edit button receives it. */
  datatype StoredProduct = StoredProduct(
    id: string, name: string, price: string, originalPrice: string, category: string, description: string,
    fabric: string, careInstructions: string, sizes: Option<seq<string>>, colors: Option<seq<string>>,
    isTrending: bool, mainImage: Option<string>, images: Option<seq<string>>)

  function NotMain(mainImage: Option<string>): string -> bool
  {
    (img: string) => mainImage.None? || img != mainImage.value
  }

  /** `handleEdit`'s sub-previews: the stored images other than the main one, none when there are no images. */
  function EditPreviews(p: StoredProduct): (r: seq<string>)
    ensures p.images.None? ==> r == []
    ensures p.images.Some? ==> IsSubsequence(r, p.images.value)
    ensures p.images.Some? ==> forall x :: x in r <==> x in p.images.value && NotMain(p.mainImage)(x)
    ensures p.images.Some? ==> forall x :: multiset(r)[x] == if NotMain(p.mainImage)(x) then multiset(p.images.value)[x] else 0
  {
    if p.images.Some? then
      FilterMultiplicity(p.images.value, NotMain(p.mainImage));
      Filter(p.images.value, NotMain(p.mainImage))
    else []
  }

  /** The form `handleEdit` fills: the product's fields, missing lists as empty, and no files chosen. */
  function EditForm(p: StoredProduct): (f: AdminForm)
    ensures f.sizes == (if p.sizes.Some? then p.sizes.value else [])
    ensures f.colors == (if p.colors.Some? then p.colors.value else [])
    ensures f.mainImage.None? && f.subImages == []
    ensures f.name == p.name && f.price == p.price && f.category == p.category && f.isTrending == p.isTrending
    ensures f.originalPrice == p.originalPrice && f.description == p.description
    ensures f.fabric == p.fabric && f.careInstructions == p.careInstructions
  {
    AdminForm(p.name, p.price, p.originalPrice, p.category, p.description, p.fabric, p.careInstructions,
              if p.sizes.Some? then p.sizes.value else [], if p.colors.Some? then p.colors.value else [],
              p.isTrending, None, [])
  }

  /** The confirmations after a successful save. */
  const Updated: string := "\U{2705} Product updated!"
  const Added: string := "\U{2705} Product added!"

  /** The form's state. */
  class FormPage {
    var form: AdminForm
    var mainPreview: Option<string>
    var subPreviews: seq<string>
    var editingId: Option<string>
    var alert: Option<string>

    /** Each chosen sub-image has its preview at the same position. */
    predicate Aligned()
      reads this
    {
      |form.subImages| == |subPreviews|
    }

    constructor()
      ensures form == EmptyForm && mainPreview.None? && subPreviews == [] && editingId.None? && Aligned()
      ensures alert.None?
    {
      form := EmptyForm;
      mainPreview := None;
      subPreviews := [];
      editingId := None;
      alert := None;
    }

    method ToggleSizeButton(s: string)
      modifies this
      ensures form == old(form).(sizes := ToggleSize(old(form).sizes, s))
      ensures mainPreview == old(mainPreview) && subPreviews == old(subPreviews) && editingId == old(editingId)
      ensures alert == old(alert)
    {
      form := form.(sizes := ToggleSize(form.sizes, s));
    }

    method TypeColors(text: string)
      modifies this
      ensures form == old(form).(colors := ColorsOf(text))
      ensures mainPreview == old(mainPreview) && subPreviews == old(subPreviews) && editingId == old(editingId)
      ensures alert == old(alert)
    {
      form := form.(colors := ColorsOf(text));
    }

    /** `handleMainUpload`: no file changes nothing; a file becomes the main image with its preview. */
    method MainUpload(file: Option<File>, objectUrl: File -> string)
      modifies this
      ensures file.None? ==> form == old(form) && mainPreview == old(mainPreview)
      ensures file.Some? ==> form == old(form).(mainImage := file) && mainPreview == Some(objectUrl(file.value))
      ensures subPreviews == old(subPreviews) && editingId == old(editingId) && alert == old(alert)
    {
      if file.None? {
        return;
      }
      form := form.(mainImage := file);
      mainPreview := Some(objectUrl(file.value));
    }

    /** `handleSubUpload`: more than four previews in total is refused with nothing changed; otherwise files and previews grow together. */
    method SubUpload(files: seq<File>, objectUrl: File -> string)
      modifies this
      ensures |files| + |old(subPreviews)| > 4 ==>
                form == old(form) && subPreviews == old(subPreviews) && alert == Some("Max 4 sub-images allowed")
      ensures |files| + |old(subPreviews)| <= 4 ==>
                form == old(form).(subImages := old(form).subImages + files)
                && subPreviews == old(subPreviews) + seq(|files|, i requires 0 <= i < |files| => objectUrl(files[i]))
                && alert == old(alert)
      ensures old(Aligned()) ==> Aligned()
      ensures old(|subPreviews|) <= 4 ==> |subPreviews| <= 4
      ensures mainPreview == old(mainPreview) && editingId == old(editingId)
    {
      if |files| + |subPreviews| > 4 {
        alert := Some("Max 4 sub-images allowed");
        return;
      }
      form := form.(subImages := form.subImages + files);
      subPreviews := subPreviews + seq(|files|, i requires 0 <= i < |files| => objectUrl(files[i]));
    }

    /** `removeSubImage(index)`: the same position leaves both lists. */
    method RemoveSubImage(index: nat)
      modifies this
      ensures form == old(form).(subImages := Splice(old(form).subImages, index))
      ensures subPreviews == Splice(old(subPreviews), index)
      ensures old(Aligned()) ==> Aligned()
      ensures mainPreview == old(mainPreview) && editingId == old(editingId) && alert == old(alert)
    {
      form := form.(subImages := Splice(form.subImages, index));
      subPreviews := Splice(subPreviews, index);
    }

    /** `resetForm`: the empty form, no previews, not editing. */
    method Reset()
      modifies this
      ensures form == EmptyForm && mainPreview.None? && subPreviews == [] && editingId.None? && Aligned()
      ensures alert == old(alert)
    {
      form := EmptyForm;
      mainPreview := None;
      subPreviews := [];
      editingId := None;
    }

    /** `handleEdit`: the product's fields, its main image as preview, the other images as sub-previews. */
    method Edit(p: StoredProduct)
      modifies this
      ensures editingId == Some(p.id) && form == EditForm(p)
      ensures mainPreview == p.mainImage && subPreviews == EditPreviews(p)
      ensures alert == old(alert)
    {
      editingId := Some(p.id);
      form := EditForm(p);
      mainPreview := p.mainImage;
      subPreviews := EditPreviews(p);
    }

    /** Builds the images of the payload as `handleSubmit` does, main image first, then each sub-image pushed in turn. */
    method CollectImages(encode: File -> string) returns (images: seq<string>)
      ensures images == PayloadImages(form, encode)
    {
      images := [];
      if form.mainImage.Some? {
        images := images + [encode(form.mainImage.value)];
      }
      var base := images;
      var subs := form.subImages;
      var i := 0;
      while i < |subs|
        invariant 0 <= i <= |subs|
        invariant |images| == |base| + i
        invariant images[..|base|] == base
        invariant forall k :: 0 <= k < i ==> images[|base| + k] == encode(subs[k])
      {
        images := images + [encode(subs[i])];
        i := i + 1;
      }
    }

    /**
     * `handleSubmit`: name and price are required; otherwise the payload is sent (to PUT when
     * editing, POST otherwise) and, if the server accepts it, the form is reset; a refusal
     * shows the server's message or a generic one.
     */
    method Submit(encode: File -> string, accepted: bool, serverMessage: string) returns (sent: Option<(Option<string>, Payload)>)
      modifies this
      ensures (old(form).name == "" || old(form).price == "") ==>
                sent.None? && form == old(form) && alert == Some("Name and Price are required!")
                && mainPreview == old(mainPreview) && subPreviews == old(subPreviews) && editingId == old(editingId)
      ensures (old(form).name != "" && old(form).price != "") ==>
                sent == Some((old(editingId), Payload(old(form), PayloadImages(old(form), encode))))
      ensures (old(form).name != "" && old(form).price != "" && accepted) ==>
                form == EmptyForm && subPreviews == [] && mainPreview.None? && editingId.None?
                && alert == Some(if old(editingId).Some? then Updated else Added)
      ensures (old(form).name != "" && old(form).price != "" && !accepted) ==>
                form == old(form) && mainPreview == old(mainPreview) && subPreviews == old(subPreviews)
                && editingId == old(editingId) && alert == Some(OrString(Some(serverMessage), "Something went wrong!"))
    {
      if form.name == "" || form.price == "" {
        alert := Some("Name and Price are required!");
        return None;
      }
      var images := CollectImages(encode);
      sent := Some((editingId, Payload(form, images)));
      if accepted {
        alert := Some(if editingId.Some? then Updated else Added);
        Reset();
      } else {
        alert := Some(OrString(Some(serverMessage), "Something went wrong!"));
      }
    }
  }
}
