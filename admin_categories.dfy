/**
 * The admin category view (Admin/src/pages/AdminCatagery.jsx): products filtered by
 * category, and the list after a delete.
 */
module AdminCategories {
  import opened Wrappers
  import opened Text
  import opened Listing

  /** The product fields the view reads. */
  datatype Listed = Listed(id: string, category: Option<string>)

  /** What the product fetch may answer: an array, or anything else. */
  datatype Fetched = ArrayData(items: seq<Listed>) | OtherData

  /** `Array.isArray(res.data) ? res.data : []`. */
  function ProductsOf(d: Fetched): (r: seq<Listed>)
    ensures d.OtherData? ==> r == []
    ensures d.ArrayData? ==> r == d.items
  {
    if d.ArrayData? then d.items else []
  }

  const Allowed: seq<string> := ["jeans", "kurtis", "gowns", "lehenga", "salwar"]

  /** The filter buttons: "All" followed by the five allowed categories. */
  const Choices: seq<string> := ["All"] + Allowed

  function InCategory(category: string): Listed -> bool
  {
    (p: Listed) => p.category.Some? && EqualsIgnoreCase(p.category.value, category)
  }

  /** `filteredProducts`: everything for "All", otherwise the products whose category equals the choice ignoring case. */
  function View(products: seq<Listed>, category: string): (r: seq<Listed>)
    ensures category == "All" ==> r == products
    ensures IsSubsequence(r, products)
    ensures category != "All" ==> forall p :: p in r <==> p in products && InCategory(category)(p)
    ensures category != "All" ==> |r| == Count(products, InCategory(category))
    ensures category != "All" ==>
              forall p :: multiset(r)[p] == if InCategory(category)(p) then multiset(products)[p] else 0
  {
    IsSubsequenceRefl(products);
    FilterMultiplicity(products, InCategory(category));
    if category == "All" then products else Filter(products, InCategory(category))
  }

  function Other(id: string): Listed -> bool
  {
    (p: Listed) => p.id != id
  }

  /** The list and `deletingId` after a delete: on success exactly the products with that id leave, in order; `deletingId` is cleared either way. */
  function AfterDelete(products: seq<Listed>, id: string, deleted: bool): (r: (seq<Listed>, Option<string>))
    ensures r.1.None?
    ensures !deleted ==> r.0 == products
    ensures deleted ==> IsSubsequence(r.0, products) && forall p :: p in r.0 <==> p in products && p.id != id
    ensures deleted ==> |r.0| == Count(products, Other(id))
    ensures deleted ==> forall p :: multiset(r.0)[p] == if p.id == id then 0 else multiset(products)[p]
  {
    FilterMultiplicity(products, Other(id));
    (if deleted then Filter(products, Other(id)) else products, None)
  }

  /** Deleting an id the list does not hold changes nothing. */
  lemma DeleteAbsent(products: seq<Listed>, id: string)
    requires forall i :: 0 <= i < |products| ==> products[i].id != id
    ensures AfterDelete(products, id, true).0 == products
  {
    forall p | p in products ensures Other(id)(p) {
    }
    FilterAll(products, Other(id));
  }

  /** The admin's category buttons and the shop's name the same five categories, up to letter case. */
  lemma ChoicesMatchShop()
    ensures |Choices| == 6 && Choices[0] == "All"
    ensures EqualsIgnoreCase(Choices[1], "Jeans") && EqualsIgnoreCase(Choices[2], "Kurtis")
    ensures EqualsIgnoreCase(Choices[3], "Gowns") && EqualsIgnoreCase(Choices[4], "Lehenga")
    ensures EqualsIgnoreCase(Choices[5], "Salwar")
  {
    assert Lower("Jeans") == "jeans";
    assert Lower("Kurtis") == "kurtis";
    assert Lower("Gowns") == "gowns";
    assert Lower("Lehenga") == "lehenga";
    assert Lower("Salwar") == "salwar";
    assert Lower("jeans") == "jeans";
    assert Lower("kurtis") == "kurtis";
    assert Lower("gowns") == "gowns";
    assert Lower("lehenga") == "lehenga";
    assert Lower("salwar") == "salwar";
  }
}
