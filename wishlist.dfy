/** The wishlist routes (Backend/routes/wishlist.js): a per-user list of product ids used as a set. */
module Wishlist {
  import opened Wrappers
  import opened Listing

  /** Add: append the product only when it is not already listed. */
  function WithProduct(products: seq<string>, productId: string): (r: seq<string>)
    ensures productId in products ==> r == products
    ensures productId !in products ==> r == products + [productId]
    ensures Elements(r) == Elements(products) + {productId}
  {
    if productId in products then products else products + [productId]
  }

  /** Adding twice is adding once, and a list without duplicates keeps none. */
  lemma WithProductIdempotent(products: seq<string>, productId: string)
    ensures WithProduct(WithProduct(products, productId), productId) == WithProduct(products, productId)
    ensures Distinct(products) ==> Distinct(WithProduct(products, productId))
  {
    var r := WithProduct(products, productId);
    assert productId in r;
    if Distinct(products) && productId !in products {
      forall i, j | 0 <= i < j < |r| ensures r[i] != r[j] {
        if j == |products| {
          assert r[i] == products[i];
        }
      }
    }
  }

  function Other(productId: string): string -> bool
  {
    (p: string) => p != productId
  }

  /** Remove: every entry for the product goes, every other entry stays, as often as listed and in order. */
  function WithoutProduct(products: seq<string>, productId: string): (r: seq<string>)
    ensures productId !in r
    ensures forall p :: p in r <==> p in products && p != productId
    ensures forall p :: multiset(r)[p] == if p == productId then 0 else multiset(products)[p]
    ensures IsSubsequence(r, products)
  {
    FilterMultiplicity(products, Other(productId));
    Filter(products, Other(productId))
  }

  /** Removing an id that is not listed changes nothing; removing after adding restores the members. */
  lemma WithoutAbsent(products: seq<string>, productId: string)
    ensures productId !in products ==> WithoutProduct(products, productId) == products
    ensures Elements(WithoutProduct(WithProduct(products, productId), productId)) == Elements(products) - {productId}
  {
    if productId !in products {
      FilterAll(products, Other(productId));
    }
  }

  class WishlistStore {
    var lists: map<string, seq<string>>

    constructor ()
      ensures lists == map[]
    {
      lists := map[];
    }

    /** GET `/`: the user's wishlist, created empty when there is none. */
    method Get(user: string) returns (products: seq<string>)
      modifies this
      ensures user in old(lists) ==> lists == old(lists) && products == lists[user]
      ensures user !in old(lists) ==> lists == old(lists)[user := []] && products == []
    {
      if user !in lists {
        lists := lists[user := []];
      }
      products := lists[user];
    }

    /** POST `/add`: refuses a missing id, creates the wishlist on demand, appends when absent. */
    method Add(user: string, productId: Option<string>) returns (r: Reply<seq<string>>)
      modifies this
      ensures !TruthyString(productId) ==> r == Err(400, "Product ID is required") && lists == old(lists)
      ensures TruthyString(productId) ==>
                var before := if user in old(lists) then old(lists)[user] else [];
                lists == old(lists)[user := WithProduct(before, productId.value)] && r == Ok(lists[user])
    {
      if !TruthyString(productId) {
        return Err(400, "Product ID is required");
      }
      var before := if user in lists then lists[user] else [];
      lists := lists[user := WithProduct(before, productId.value)];
      r := Ok(lists[user]);
    }

    /** DELETE `/remove/:productId`. */
    method Remove(user: string, productId: string) returns (r: Reply<seq<string>>)
      modifies this
      ensures user !in old(lists) ==> r == Err(404, "Wishlist not found") && lists == old(lists)
      ensures user in old(lists) ==>
                lists == old(lists)[user := WithoutProduct(old(lists)[user], productId)] && r == Ok(lists[user])
    {
      if user !in lists {
        return Err(404, "Wishlist not found");
      }
      lists := lists[user := WithoutProduct(lists[user], productId)];
      r := Ok(lists[user]);
    }
  }
}
