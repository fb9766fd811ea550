/**
 * The catalogue page's filters (Frontend/src/pages/Shop.jsx): a category, an inclusive
 * price range and a size, applied together to the fetched products.
 */
module Shop {
  import opened Wrappers
  import opened Text
  import opened Listing

  /** The fields the filter reads; each may be missing from a product document. */
  datatype ShopProduct = ShopProduct(category: Option<string>, price: Option<int>, sizes: Option<seq<string>>)

  datatype Filters = Filters(category: string, low: int, high: int, size: string)

  /** The initial filters: every category, 0 to 100000, every size. */
  const Initial: Filters := Filters("All", 0, 100000, "All")

  predicate MatchesCategory(f: Filters, p: ShopProduct)
  {
    f.category == "All" || (p.category.Some? && EqualsIgnoreCase(p.category.value, f.category))
  }

  /** Inclusive at both ends; a product without a price fails, since comparisons with `undefined` are false. */
  predicate MatchesPrice(f: Filters, p: ShopProduct)
  {
    p.price.Some? && f.low <= p.price.value <= f.high
  }

  predicate MatchesSize(f: Filters, p: ShopProduct)
  {
    f.size == "All" || (p.sizes.Some? && f.size in p.sizes.value)
  }

  function Matches(f: Filters): ShopProduct -> bool
  {
    (p: ShopProduct) => MatchesCategory(f, p) && MatchesPrice(f, p) && MatchesSize(f, p)
  }

  /** `filteredProducts`: the products passing all three tests, each as often as listed, in their original order. */
  function Filtered(products: seq<ShopProduct>, f: Filters): (r: seq<ShopProduct>)
    ensures IsSubsequence(r, products)
    ensures forall p :: p in r <==> p in products && MatchesCategory(f, p) && MatchesPrice(f, p) && MatchesSize(f, p)
    ensures forall p :: multiset(r)[p] ==
              if MatchesCategory(f, p) && MatchesPrice(f, p) && MatchesSize(f, p) then multiset(products)[p] else 0
  {
    FilterMultiplicity(products, Matches(f));
    Filter(products, Matches(f))
  }

  /** With the initial filters a product shows exactly when it has a price between 0 and 100000. */
  lemma InitialFiltersHideExpensive(products: seq<ShopProduct>, p: ShopProduct)
    requires p in products
    ensures p in Filtered(products, Initial) <==> p.price.Some? && 0 <= p.price.value <= 100000
  {
  }

  /** A specific category never matches a product without one, and matching ignores letter case. */
  lemma CategoryMatching(f: Filters, p: ShopProduct, q: ShopProduct)
    requires f.category != "All"
    requires q.category.Some? && p.category.Some? && Lower(p.category.value) == Lower(q.category.value)
    ensures ShopProduct(None, p.price, p.sizes) !in Filtered([ShopProduct(None, p.price, p.sizes)], f)
    ensures MatchesCategory(f, p) <==> MatchesCategory(f, q)
  {
  }

  /** The price buttons' ranges. */
  const Buckets: seq<(int, int)> := [(0, 500), (500, 1000), (1000, 3000), (3000, 5000), (5000, 100000)]

  function PriceRange(f: Filters, b: (int, int)): Filters
  {
    f.(low := b.0, high := b.1)
  }

  /** Neighbouring buckets share their endpoint, so a price of exactly 500 shows under both of the first two buttons. */
  lemma BucketsShareEndpoints(f: Filters, p: ShopProduct)
    requires p.price == Some(500)
    ensures MatchesPrice(PriceRange(f, Buckets[0]), p) && MatchesPrice(PriceRange(f, Buckets[1]), p)
  {
  }

  /** Together the buckets cover every price from 0 to 100000. */
  lemma BucketsCover(f: Filters, p: ShopProduct)
    requires p.price.Some? && 0 <= p.price.value <= 100000
    ensures exists k :: 0 <= k < |Buckets| && MatchesPrice(PriceRange(f, Buckets[k]), p)
  {
    var x := p.price.value;
    var k := if x <= 500 then 0 else if x <= 1000 then 1 else if x <= 3000 then 2 else if x <= 5000 then 3 else 4;
    assert MatchesPrice(PriceRange(f, Buckets[k]), p);
  }
}
