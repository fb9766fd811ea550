/**
 * The checkout page (Frontend/src/pages/Checkout.jsx): the totals it shows, the
 * guard on submission and the `placeOrder` sequence, which saves the profile, posts
 * the order and then either finishes a cash-on-delivery order or opens the gateway.
 * Server replies and the script loader are parameters.
 */
module Checkout {
  import opened Wrappers
  import opened Accounts
  import opened OrderSchema
  import opened OrderService
  import opened CartPage
  import Profile

  /** The checkout total: the cart's subtotal plus the flat shipping charge, which is also sent with the order. */
  function Total(cart: seq<ViewLine>): (t: int)
    ensures t == Subtotal(cart) + ShippingFee
    ensures t == GrandTotal(cart)
  {
    Subtotal(cart) + ShippingFee
  }

  /** The profile fields the form edits. */
  datatype UserData = UserData(name: string, email: string, phone: string, address: Address)

  /** `handleSubmit`'s guard: phone, address line and pincode must be non-empty. */
  predicate CanSubmit(u: UserData)
  {
    u.phone != "" && u.address.line != "" && u.address.pincode != ""
  }

  /** The PUT body `handleSaveUser` sends. */
  function SaveBody(u: UserData): (b: (Option<string>, Option<Profile.AddressBody>))
    ensures b.0 == Some(u.phone) && b.1.Some?
  {
    (Some(u.phone), Some(Profile.AddressBody(Some(u.address.line), Some(u.address.city), Some(u.address.state), Some(u.address.pincode))))
  }

  /** A form that passes the page's guard, once saved, leaves a profile the order route accepts. */
  lemma SubmitGuardMatchesServer(stored: User, u: UserData)
    requires CanSubmit(u)
    ensures ProfileComplete(Profile.UpdatedProfile(stored, SaveBody(u).0, SaveBody(u).1))
  {
    Profile.UpdateCompletesProfile(stored, SaveBody(u).0, SaveBody(u).1);
  }

  /** `cart.map(c => ({productId: c.product._id, quantity: c.quantity}))`; `None` when an entry has no product, where the mapping throws. */
  function RequestItems(cart: seq<ViewLine>): (r: Option<seq<ItemRequest>>)
    ensures r.Some? <==> forall i :: 0 <= i < |cart| ==> cart[i].product.Some?
    ensures r.Some? ==> |r.value| == |cart|
    ensures r.Some? ==> forall i :: 0 <= i < |cart| ==> r.value[i] == ItemRequest(cart[i].product.value.id, cart[i].quantity)
  {
    if forall i :: 0 <= i < |cart| ==> cart[i].product.Some? then
      Some(seq(|cart|, i requires 0 <= i < |cart| => ItemRequest(cart[i].product.value.id, cart[i].quantity)))
    else None
  }

  /** Every entry shows a product the catalog knows, at the catalog's price. */
  predicate PricesAgree(cart: seq<ViewLine>, catalog: map<string, CatalogProduct>)
  {
    forall i :: 0 <= i < |cart| ==>
      cart[i].product.Some? && cart[i].product.value.id in catalog
      && cart[i].product.value.price == Some(catalog[cart[i].product.value.id].price)
  }

  lemma {:induction false} ItemsTotalMatchesSubtotal(cart: seq<ViewLine>, catalog: map<string, CatalogProduct>)
    requires PricesAgree(cart, catalog)
    ensures RequestItems(cart).Some?
    ensures ItemsTotal(Snapshots(RequestItems(cart).value, catalog)) == Subtotal(cart)
    decreases |cart|
  {
    var items := RequestItems(cart).value;
    if cart != [] {
      var tail := cart[1..];
      assert PricesAgree(tail, catalog) by {
        forall i | 0 <= i < |tail| ensures tail[i] == cart[i + 1] { }
      }
      ItemsTotalMatchesSubtotal(tail, catalog);
      var lines := Snapshots(items, catalog);
      assert lines[1..] == Snapshots(RequestItems(tail).value, catalog);
      assert lines[0].price == LinePrice(cart[0]);
    } else {
      assert Snapshots(items, catalog) == [];
    }
  }

  /** The total the page shows is the total the server stores for the order it sends, when the prices shown are current. */
  lemma CheckoutTotalMatchesServer(cart: seq<ViewLine>, catalog: map<string, CatalogProduct>, users: map<string, User>,
                                   userId: string, m: string)
    requires PricesAgree(cart, catalog)
    ensures RequestItems(cart).Some?
    ensures var req := CreateRequest(RequestItems(cart), Some(ShippingFee), Some(m));
            Plan(catalog, users, userId, req).Ok? ==> Plan(catalog, users, userId, req).value.total == Total(cart)
  {
    ItemsTotalMatchesSubtotal(cart, catalog);
  }

  /** How one press of "place order" ends. */
  datatype Outcome =
    | EmptyCart
    | SaveFailed
    | Crashed
    | Failed(message: string)
    | CodPlaced(orderId: string)
    | GatewayUnavailable
    | GatewayOpened(orderId: string, session: Session)
    | NotConfigured

  /**
   * The sequence of `placeOrder(method)`, given whether the profile save succeeded,
   * the server's reply to the order and whether the gateway script loaded.
   */
  function PlaceOutcome(cart: seq<ViewLine>, m: string, saveOk: bool, reply: Reply<Created>, gatewayLoaded: bool): (o: Outcome)
    ensures o == EmptyCart <==> cart == []
    ensures cart != [] && !saveOk ==> o == SaveFailed
    ensures cart != [] && saveOk && RequestItems(cart).None? ==> o == Crashed
    ensures o.CodPlaced? <==> cart != [] && saveOk && RequestItems(cart).Some? && reply.Ok? && m == "COD"
    ensures o.CodPlaced? ==> o.orderId == reply.value.orderId
    ensures o.GatewayOpened? <==> (cart != [] && saveOk && RequestItems(cart).Some? && reply.Ok? && m != "COD"
                                   && reply.value.paymentSession.Some? && reply.value.paymentSession.value.kind == "razorpay"
                                   && gatewayLoaded)
    ensures o.GatewayOpened? ==> o.session == reply.value.paymentSession.value && o.orderId == reply.value.orderId
    ensures o.Failed? ==> reply.Err? && o.message == OrString(Some(reply.message), "Failed to place order")
  {
    if cart == [] then EmptyCart
    else if !saveOk then SaveFailed
    else if RequestItems(cart).None? then Crashed
    else if reply.Err? then Failed(OrString(Some(reply.message), "Failed to place order"))
    else if m == "COD" then CodPlaced(reply.value.orderId)
    else
      var s := reply.value.paymentSession;
      if s.Some? && s.value.kind == "razorpay" then
        if gatewayLoaded then GatewayOpened(reply.value.orderId, s.value) else GatewayUnavailable
      else NotConfigured
  }

  /** A cash-on-delivery order placed by the server always finishes on the page without the gateway. */
  lemma CodNeverOpensGateway(cart: seq<ViewLine>, reply: Reply<Created>, gatewayLoaded: bool)
    requires cart != [] && RequestItems(cart).Some? && reply.Ok?
    ensures PlaceOutcome(cart, "COD", true, reply, gatewayLoaded) == CodPlaced(reply.value.orderId)
  {
  }

  /** The page state `placeOrder` touches. */
  class CheckoutPage {
    var cart: seq<ViewLine>
    var loading: bool
    var toast: Option<string>
    var location: Option<string>
    var sent: Option<CreateRequest>
    var gateway: Option<Session>

    constructor(cart0: seq<ViewLine>)
      ensures cart == cart0 && !loading && toast.None? && location.None? && sent.None? && gateway.None?
    {
      cart := cart0;
      loading := false;
      toast := None;
      location := None;
      sent := None;
      gateway := None;
    }

    /**
     * `placeOrder(m)`. An empty cart only warns; a failed save stops with `loading` off; an
     * entry without a product throws before the request, leaving `loading` on. Otherwise
     * exactly one request carrying every entry in order is sent, and `loading` ends off.
     */
    method PlaceOrder(m: string, saveOk: bool, reply: Reply<Created>, gatewayLoaded: bool) returns (o: Outcome)
      modifies this
      ensures o == PlaceOutcome(old(cart), m, saveOk, reply, gatewayLoaded)
      ensures o == EmptyCart ==> toast == Some("Your cart is empty") && loading == old(loading) && sent == old(sent)
      ensures o == SaveFailed ==> !loading && sent == old(sent)
      ensures o == Crashed ==> loading && sent == old(sent)
      ensures o !in {EmptyCart, SaveFailed, Crashed} ==>
                sent == Some(CreateRequest(RequestItems(old(cart)), Some(ShippingFee), Some(m))) && !loading
      ensures o.CodPlaced? ==> cart == [] && location == Some("/order-success/" + o.orderId)
                               && toast == Some("Order placed successfully!")
      ensures !o.CodPlaced? ==> cart == old(cart) && location == old(location)
      ensures o.GatewayOpened? ==> gateway == Some(o.session)
      ensures !o.GatewayOpened? ==> gateway == old(gateway)
      ensures o.Failed? ==> toast == Some(o.message)
      ensures o == GatewayUnavailable ==> toast == Some("Failed to load payment gateway. Try again later.")
      ensures o == NotConfigured ==> toast == Some("Payment integration not configured.")
    {
      o := PlaceOutcome(cart, m, saveOk, reply, gatewayLoaded);
      if cart == [] {
        toast := Some("Your cart is empty");
        return;
      }
      loading := true;
      if !saveOk {
        loading := false;
        return;
      }
      var items := RequestItems(cart);
      if items.None? {
        return;
      }
      sent := Some(CreateRequest(items, Some(ShippingFee), Some(m)));
      if reply.Err? {
        toast := Some(OrString(Some(reply.message), "Failed to place order"));
      } else if m == "COD" {
        toast := Some("Order placed successfully!");
        cart := [];
        location := Some("/order-success/" + reply.value.orderId);
      } else {
        var s := reply.value.paymentSession;
        if s.Some? && s.value.kind == "razorpay" {
          if !gatewayLoaded {
            toast := Some("Failed to load payment gateway. Try again later.");
          } else {
            gateway := s;
          }
        } else {
          toast := Some("Payment integration not configured.");
        }
      }
      loading := false;
    }

    /** The gateway's success handler: a verified payment clears the cart and shows the order; a refused one only reports. */
    method PaymentHandled(orderId: string, verified: Reply<Order>)
      modifies this
      ensures verified.Ok? ==> cart == [] && location == Some("/order-success/" + orderId) && toast == Some("Payment successful!")
      ensures verified.Err? ==> cart == old(cart) && location == old(location)
                                && toast == Some(OrString(Some(verified.message), "Payment verification failed"))
      ensures loading == old(loading) && sent == old(sent) && gateway == old(gateway)
    {
      if verified.Ok? {
        toast := Some("Payment successful!");
        cart := [];
        location := Some("/order-success/" + orderId);
      } else {
        toast := Some(OrString(Some(verified.message), "Payment verification failed"));
      }
    }

    /** `handleSubmit`: an incomplete form only warns; otherwise the order is placed with the chosen method. */
    method Submit(u: UserData, m: string, saveOk: bool, reply: Reply<Created>, gatewayLoaded: bool) returns (o: Option<Outcome>)
      modifies this
      ensures !CanSubmit(u) ==> o.None? && toast == Some("Please fill in phone and full address.")
                                && cart == old(cart) && sent == old(sent) && loading == old(loading)
      ensures CanSubmit(u) ==> o == Some(PlaceOutcome(old(cart), m, saveOk, reply, gatewayLoaded))
    {
      if !CanSubmit(u) {
        toast := Some("Please fill in phone and full address.");
        return None;
      }
      var r := PlaceOrder(m, saveOk, reply, gatewayLoaded);
      o := Some(r);
    }
  }
}
