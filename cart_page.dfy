/**
 * The shopping-bag page (Frontend/src/pages/Cart.jsx): the subtotal over the cart the
 * cart context holds, the grand total with the fixed shipping charge, and the
 * quantity controls.
 */
module CartPage {
  import opened Wrappers

  /** A product as the cart endpoint populates it; `price` may be missing. */
  datatype ViewProduct = ViewProduct(id: string, price: Option<int>)

  /** A cart entry as the frontend sees it; a deleted product leaves `product` empty. */
  datatype ViewLine = ViewLine(product: Option<ViewProduct>, quantity: int, selectedSize: Option<string>)

  /** `item.product?.price || 0`. */
  function LinePrice(l: ViewLine): (p: int)
    ensures l.product.Some? && l.product.value.price.Some? ==> p == l.product.value.price.value
    ensures l.product.None? || l.product.value.price.None? ==> p == 0
  {
    if l.product.Some? && l.product.value.price.Some? then l.product.value.price.value else 0
  }

  /** `cart.reduce((sum, item) => sum + (item.product?.price || 0) * item.quantity, 0)`. */
  function Subtotal(cart: seq<ViewLine>): (s: int)
    ensures (forall i :: 0 <= i < |cart| ==> LinePrice(cart[i]) >= 0 && cart[i].quantity >= 0) ==> s >= 0
  {
    if cart == [] then 0 else LinePrice(cart[0]) * cart[0].quantity + Subtotal(cart[1..])
  }

  /** The subtotal of two carts placed end to end is the sum of their subtotals. */
  lemma {:induction false} SubtotalAppend(a: seq<ViewLine>, b: seq<ViewLine>)
    ensures Subtotal(a + b) == Subtotal(a) + Subtotal(b)
    decreases |a|
  {
    if a != [] {
      assert (a + b)[1..] == a[1..] + b;
      SubtotalAppend(a[1..], b);
    } else {
      assert a + b == b;
    }
  }

  /** The flat shipping charge both the bag and the checkout page add. */
  const ShippingFee: int := 49

  /** The total the bag displays: the subtotal plus shipping. */
  function GrandTotal(cart: seq<ViewLine>): (t: int)
    ensures t - ShippingFee == Subtotal(cart)
  {
    Subtotal(cart) + ShippingFee
  }

  /** `handleUpdateQuantity`: a quantity below 1 sends nothing, any other is sent as is. */
  function QuantityUpdate(quantity: int): (sent: Option<int>)
    ensures sent.Some? <==> quantity >= 1
    ensures sent.Some? ==> sent.value == quantity
  {
    if quantity < 1 then None else Some(quantity)
  }

  /** The decrement button is disabled at quantity 1 or below. */
  predicate DecrementDisabled(quantity: int)
  {
    quantity <= 1
  }

  /** The quantity controls never send a quantity below 1: decrement is either disabled or yields at least 1. */
  lemma ControlsKeepQuantityPositive(quantity: int)
    requires quantity >= 0
    ensures !DecrementDisabled(quantity) ==> QuantityUpdate(quantity - 1) == Some(quantity - 1)
    ensures QuantityUpdate(quantity + 1) == Some(quantity + 1)
    ensures DecrementDisabled(quantity) ==> quantity - 1 < 1
  {
  }
}
