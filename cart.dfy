/**
 * The shopping cart routes (Backend/routes/cart.js). Each user has at most one cart,
 * an ordered list of entries keyed by product id; the handlers update that list in place.
 */
module Cart {
  import opened Wrappers
  import opened Listing

  datatype CartItem = CartItem(product: string, quantity: int)

  /** `items.findIndex(item => item.product === productId)`, `None` for -1. */
  function IndexOf(items: seq<CartItem>, productId: string): (r: Option<nat>)
    ensures r.Some? ==> r.value < |items| && items[r.value].product == productId
    ensures r.Some? ==> forall j :: 0 <= j < r.value ==> items[j].product != productId
    ensures r.None? <==> forall j :: 0 <= j < |items| ==> items[j].product != productId
    decreases |items|
  {
    if items == [] then None
    else if items[0].product == productId then Some(0)
    else
      match IndexOf(items[1..], productId)
      case None => None
      case Some(k) => Some(k + 1)
  }

  /** No product has two entries. */
  predicate DistinctProducts(items: seq<CartItem>)
  {
    forall i, j :: 0 <= i < j < |items| ==> items[i].product != items[j].product
  }

  /** The quantity held for a product in a cart without duplicate entries; 0 when absent. */
  function QuantityOf(items: seq<CartItem>, productId: string): int
  {
    match IndexOf(items, productId)
    case None => 0
    case Some(k) => items[k].quantity
  }

  /** Add: raise the existing entry's quantity, or append a new entry. */
  function MergeAdd(items: seq<CartItem>, productId: string, quantity: int): (r: seq<CartItem>)
    ensures IndexOf(items, productId).None? ==> r == items + [CartItem(productId, quantity)]
    ensures IndexOf(items, productId).Some? ==> |r| == |items|
  {
    match IndexOf(items, productId)
    case None => items + [CartItem(productId, quantity)]
    case Some(k) => items[k := items[k].(quantity := items[k].quantity + quantity)]
  }

  /**
   * Adding keeps entries distinct, adds `quantity` to that product's total, and leaves
   * every other product's entry as it was.
   */
  lemma MergeAddEffect(items: seq<CartItem>, productId: string, quantity: int)
    requires DistinctProducts(items)
    ensures DistinctProducts(MergeAdd(items, productId, quantity))
    ensures QuantityOf(MergeAdd(items, productId, quantity), productId) == QuantityOf(items, productId) + quantity
    ensures forall p :: p != productId ==> QuantityOf(MergeAdd(items, productId, quantity), p) == QuantityOf(items, p)
  {
    var r := MergeAdd(items, productId, quantity);
    forall p ensures QuantityOf(r, p) == (if p == productId then QuantityOf(items, p) + quantity else QuantityOf(items, p)) {
      match IndexOf(items, productId)
      case None =>
        if p == productId {
          assert IndexOf(r, p) == Some(|items|) by { IndexOfLast(items, CartItem(productId, quantity)); }
        } else {
          IndexOfAppend(items, CartItem(productId, quantity), p);
        }
      case Some(k) =>
        IndexOfUpdate(items, k, r[k], p);
    }
  }

  lemma IndexOfLast(items: seq<CartItem>, last: CartItem)
    requires forall j :: 0 <= j < |items| ==> items[j].product != last.product
    ensures IndexOf(items + [last], last.product) == Some(|items|)
  {
    var r := IndexOf(items + [last], last.product);
    assert (items + [last])[|items|] == last;
  }

  lemma IndexOfAppend(items: seq<CartItem>, last: CartItem, p: string)
    requires p != last.product
    ensures IndexOf(items + [last], p) == IndexOf(items, p)
  {
    var r := IndexOf(items + [last], p);
    match IndexOf(items, p)
    case None =>
      assert forall j :: 0 <= j < |items| + 1 ==> (items + [last])[j].product != p by {
        forall j | 0 <= j < |items| + 1 ensures (items + [last])[j].product != p {
          if j < |items| {
            assert (items + [last])[j] == items[j];
          }
        }
      }
    case Some(k) =>
      assert (items + [last])[k] == items[k];
  }

  lemma IndexOfUpdate(items: seq<CartItem>, k: nat, item: CartItem, p: string)
    requires k < |items| && item.product == items[k].product
    ensures IndexOf(items[k := item], p) == IndexOf(items, p)
  {
    var u := items[k := item];
    var r := IndexOf(u, p);
    match IndexOf(items, p)
    case None =>
      assert forall j :: 0 <= j < |u| ==> u[j].product != p by {
        forall j | 0 <= j < |u| ensures u[j].product != p {
          assert u[j].product == items[j].product;
        }
      }
    case Some(i) =>
      assert u[i].product == p;
  }

  function NotProduct(productId: string): CartItem -> bool
  {
    (item: CartItem) => item.product != productId
  }

  /** Remove: drops every entry for the product, keeping every other entry, duplicates included, in order. */
  function RemoveProduct(items: seq<CartItem>, productId: string): (r: seq<CartItem>)
    ensures forall j :: 0 <= j < |r| ==> r[j].product != productId
    ensures forall x :: x in r <==> x in items && x.product != productId
    ensures forall x :: multiset(r)[x] == if x.product == productId then 0 else multiset(items)[x]
    ensures IsSubsequence(r, items)
  {
    var r := Filter(items, NotProduct(productId));
    FilterMultiplicity(items, NotProduct(productId));
    assert forall j :: 0 <= j < |r| ==> r[j] in r;
    r
  }

  /** Removing a product that is not in the cart changes nothing. */
  lemma RemoveAbsent(items: seq<CartItem>, productId: string)
    requires IndexOf(items, productId).None?
    ensures RemoveProduct(items, productId) == items
  {
    FilterAll(items, NotProduct(productId));
  }

  /** The body of POST `/add`; `selectedSize` is sent by the client but never read. */
  datatype AddRequest = AddRequest(productId: Option<string>, quantity: Option<int>, selectedSize: Option<string>)

  /** `!productId || !quantity`: a missing or empty id and a missing or zero quantity are refused. */
  predicate AddAccepted(req: AddRequest)
  {
    TruthyString(req.productId) && req.quantity.Some? && req.quantity.value != 0
  }

  /** Two requests differing only in the size lead to the same cart. */
  lemma AddIgnoresSize(items: seq<CartItem>, a: AddRequest, b: AddRequest)
    requires a.productId == b.productId && a.quantity == b.quantity
    requires AddAccepted(a)
    ensures AddAccepted(b)
    ensures MergeAdd(items, a.productId.value, a.quantity.value) == MergeAdd(items, b.productId.value, b.quantity.value)
  {
  }

  /** The carts collection, one item list per user. */
  class CartStore {
    var carts: map<string, seq<CartItem>>

    constructor ()
      ensures carts == map[]
    {
      carts := map[];
    }

    /** GET `/`: the user's cart, created empty when there is none. */
    method Get(user: string) returns (items: seq<CartItem>)
      modifies this
      ensures user in old(carts) ==> carts == old(carts) && items == carts[user]
      ensures user !in old(carts) ==> carts == old(carts)[user := []] && items == []
    {
      if user !in carts {
        carts := carts[user := []];
      }
      items := carts[user];
    }

    /** POST `/add`: validate, create the cart on demand, then merge the entry. */
    method Add(user: string, req: AddRequest) returns (r: Reply<seq<CartItem>>)
      modifies this
      ensures !AddAccepted(req) ==> r == Err(400, "Product ID & quantity required") && carts == old(carts)
      ensures AddAccepted(req) ==>
                var before := if user in old(carts) then old(carts)[user] else [];
                carts == old(carts)[user := MergeAdd(before, req.productId.value, req.quantity.value)]
                && r == Ok(carts[user])
    {
      if !AddAccepted(req) {
        return Err(400, "Product ID & quantity required");
      }
      var before := if user in carts then carts[user] else [];
      carts := carts[user := MergeAdd(before, req.productId.value, req.quantity.value)];
      r := Ok(carts[user]);
    }

    /** PUT `/update`: set the quantity of an entry already in the cart, with no lower bound. */
    method Update(user: string, productId: Option<string>, quantity: int) returns (r: Reply<seq<CartItem>>)
      modifies this
      ensures user !in old(carts) ==> r == Err(404, "Cart not found") && carts == old(carts)
      ensures user in old(carts) && (productId.None? || IndexOf(old(carts)[user], productId.value).None?) ==>
                r == Err(404, "Product not in cart") && carts == old(carts)
      ensures user in old(carts) && productId.Some? && IndexOf(old(carts)[user], productId.value).Some? ==>
                var items := old(carts)[user];
                var k := IndexOf(items, productId.value).value;
                carts == old(carts)[user := items[k := items[k].(quantity := quantity)]] && r == Ok(carts[user])
    {
      if user !in carts {
        return Err(404, "Cart not found");
      }
      var items := carts[user];
      var index := if productId.Some? then IndexOf(items, productId.value) else None;
      if index.None? {
        return Err(404, "Product not in cart");
      }
      var k := index.value;
      carts := carts[user := items[k := items[k].(quantity := quantity)]];
      r := Ok(carts[user]);
    }

    /** DELETE `/remove/:productId`. */
    method Remove(user: string, productId: string) returns (r: Reply<seq<CartItem>>)
      modifies this
      ensures user !in old(carts) ==> r == Err(404, "Cart not found") && carts == old(carts)
      ensures user in old(carts) ==>
                carts == old(carts)[user := RemoveProduct(old(carts)[user], productId)] && r == Ok(carts[user])
    {
      if user !in carts {
        return Err(404, "Cart not found");
      }
      carts := carts[user := RemoveProduct(carts[user], productId)];
      r := Ok(carts[user]);
    }

    /** DELETE `/clear`. */
    method Clear(user: string) returns (r: Reply<seq<CartItem>>)
      modifies this
      ensures user !in old(carts) ==> r == Err(404, "Cart not found") && carts == old(carts)
      ensures user in old(carts) ==> carts == old(carts)[user := []] && r == Ok([])
    {
      if user !in carts {
        return Err(404, "Cart not found");
      }
      carts := carts[user := []];
      r := Ok([]);
    }
  }
}
