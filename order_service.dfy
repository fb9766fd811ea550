/**
 * The order and payment lifecycle of the storefront backend: order creation
 * (Backend/routes/orderRoutes.js), client-relayed and manual settlement, the gateway
 * webhook (Backend/routes/paymentWebhook.js) and the admin status change
 * (Backend/routes/adminOrders.js). The collections are held by a `Store`; every
 * handler is a method whose contract is given by a pure decision function, and the
 * properties of the lifecycle are lemmas about those functions.
 *
 * HMAC-SHA256 is the uninterpreted `hmac(key, message)`, the gateway's order
 * creation is `gatewayOrder(amount, currency, receipt)`, JSON parsing of the webhook
 * body is `parse(body)`, and clock readings are integer parameters.
 */
module OrderService {
  import opened Wrappers
  import opened Text
  import opened Listing
  import opened Accounts
  import opened OrderSchema
  import opened ProductBinding

  // ---------------------------------------------------------------- creation

  /** A catalogue product as the order snapshot reads it. */
  datatype CatalogProduct = CatalogProduct(name: string, price: int, mainImage: string, images: seq<string>)

  /** One requested line: `{ productId, quantity }`. */
  datatype ItemRequest = ItemRequest(productId: string, quantity: int)

  /** The body of POST `/`; `None` stands for a field that was not sent. */
  datatype CreateRequest = CreateRequest(items: Option<seq<ItemRequest>>, shippingFee: Option<int>, paymentMethod: Option<string>)

  /** What creation computes before writing anything. */
  datatype Draft = Draft(items: seq<OrderItem>, total: int, shippingFee: int, payment: Method)

  /** The hosted-checkout session handed back for CARD and UPI. */
  datatype Session = Session(kind: string, gatewayOrderId: string, amount: int, currency: string, key: Option<string>)

  /** The success body: the new order's id and the session, `None` standing for `null`. */
  datatype Created = Created(orderId: string, paymentSession: Option<Session>)

  /** `!items || items.length === 0` fails exactly when this does not hold. */
  predicate ItemsGiven(req: CreateRequest)
  {
    req.items.Some? && |req.items.value| > 0
  }

  function RequestedIds(items: seq<ItemRequest>): (ids: seq<string>)
    ensures |ids| == |items|
    ensures forall i :: 0 <= i < |items| ==> ids[i] == items[i].productId
  {
    seq(|items|, i requires 0 <= i < |items| => items[i].productId)
  }

  /** The distinct catalogue products a `$in` query over the requested ids returns. */
  function FoundIds(items: seq<ItemRequest>, catalog: map<string, CatalogProduct>): set<string>
  {
    set id | id in RequestedIds(items) && id in catalog
  }

  /** Every requested product exists and none is requested twice. */
  predicate AllKnownAndDistinct(items: seq<ItemRequest>, catalog: map<string, CatalogProduct>)
  {
    (forall i :: 0 <= i < |items| ==> items[i].productId in catalog) && Distinct(RequestedIds(items))
  }

  /**
   * The handler compares the number of products found with the number of lines, so it
   * rejects an unknown id and also a repeated one.
   */
  lemma FoundCountMatches(items: seq<ItemRequest>, catalog: map<string, CatalogProduct>)
    ensures |FoundIds(items, catalog)| <= |items|
    ensures |FoundIds(items, catalog)| == |items| <==> AllKnownAndDistinct(items, catalog)
  {
    var ids := RequestedIds(items);
    var found := FoundIds(items, catalog);
    ElementsCard(ids);
    assert found <= Elements(ids);
    SubsetCard(found, Elements(ids));
    if forall i :: 0 <= i < |items| ==> items[i].productId in catalog {
      assert found == Elements(ids);
    } else {
      var k :| 0 <= k < |items| && items[k].productId !in catalog;
      assert ids[k] in Elements(ids) && ids[k] !in found;
      assert found <= Elements(ids) - {ids[k]};
      assert |Elements(ids) - {ids[k]}| == |Elements(ids)| - 1;
      SubsetCard(found, Elements(ids) - {ids[k]});
    }
  }

  /** `mainImage || images?.[0] || ""`. */
  function Thumbnail(p: CatalogProduct): (s: string)
    ensures p.mainImage != "" ==> s == p.mainImage
    ensures p.mainImage == "" && |p.images| > 0 && p.images[0] != "" ==> s == p.images[0]
    ensures p.mainImage == "" && (|p.images| == 0 || p.images[0] == "") ==> s == ""
  {
    if p.mainImage != "" then p.mainImage
    else if |p.images| > 0 && p.images[0] != "" then p.images[0]
    else ""
  }

  /** The line item stored for one request line: catalogue name and price, requested quantity. */
  function Snapshot(id: string, p: CatalogProduct, quantity: int): (it: OrderItem)
    ensures it.product == id && it.name == p.name && it.price == p.price
    ensures it.quantity == quantity && it.mainImage == Thumbnail(p)
  {
    OrderItem(id, p.name, p.price, quantity, Thumbnail(p))
  }

  function Snapshots(items: seq<ItemRequest>, catalog: map<string, CatalogProduct>): (r: seq<OrderItem>)
    requires forall i :: 0 <= i < |items| ==> items[i].productId in catalog
    ensures |r| == |items|
    ensures forall i :: 0 <= i < |items| ==>
              r[i] == Snapshot(items[i].productId, catalog[items[i].productId], items[i].quantity)
  {
    seq(|items|, i requires 0 <= i < |items| =>
      Snapshot(items[i].productId, catalog[items[i].productId], items[i].quantity))
  }

  /** The snapshot lines pass the schema exactly when every line names a product that has a name. */
  lemma SnapshotsValid(items: seq<ItemRequest>, catalog: map<string, CatalogProduct>)
    requires forall i :: 0 <= i < |items| ==> items[i].productId in catalog
    ensures (forall i :: 0 <= i < |items| ==> ItemValid(Snapshots(items, catalog)[i])) <==>
            (forall i :: 0 <= i < |items| ==> items[i].productId != "" && catalog[items[i].productId].name != "")
  {
    var lines := Snapshots(items, catalog);
    forall i | 0 <= i < |items|
      ensures ItemValid(lines[i]) <==> items[i].productId != "" && catalog[items[i].productId].name != ""
    {
    }
  }

  /** Σ price × quantity over the line items; with no negative price or quantity it is never negative. */
  function ItemsTotal(items: seq<OrderItem>): (t: int)
    ensures (forall i :: 0 <= i < |items| ==> items[i].price >= 0 && items[i].quantity >= 0) ==> t >= 0
  {
    if items == [] then 0 else items[0].price * items[0].quantity + ItemsTotal(items[1..])
  }

  /** The items total is additive, so it does not depend on how the lines are grouped. */
  lemma {:induction false} ItemsTotalAppend(a: seq<OrderItem>, b: seq<OrderItem>)
    ensures ItemsTotal(a + b) == ItemsTotal(a) + ItemsTotal(b)
    decreases |a|
  {
    if a == [] {
      assert a + b == b;
    } else {
      assert (a + b)[1..] == a[1..] + b;
      ItemsTotalAppend(a[1..], b);
    }
  }

  /** The fields handed to `Order.create`: COD starts Pending and unpaid, CARD and UPI start Created and paid. */
  function InitialFields(userId: string, d: Draft): OrderFields
  {
    OrderFields(userId, d.items, Some(d.total), Some(d.shippingFee), Some(MethodName(d.payment)),
                Some(if d.payment == COD then "Pending" else "Created"),
                Some(d.payment != COD))
  }

  /**
   * Every check of POST `/` passes and the order schema accepts the snapshot: items
   * given, a known method, every product found once, a known user with a complete
   * profile, and a non-empty user, product id and catalogue name on every line.
   */
  predicate Placeable(catalog: map<string, CatalogProduct>, users: map<string, User>, userId: string, req: CreateRequest)
  {
    && ItemsGiven(req) && ParseMethod(req.paymentMethod).Some? && AllKnownAndDistinct(req.items.value, catalog)
    && userId != "" && userId in users && ProfileComplete(users[userId])
    && forall i :: 0 <= i < |req.items.value| ==>
         req.items.value[i].productId != "" && catalog[req.items.value[i].productId].name != ""
  }

  /**
   * The decision of POST `/`, in the handler's order: items present, method valid,
   * every product found, user found, profile complete, and the order passing its
   * schema. Nothing is looked up before the first two checks.
   */
  function Plan(catalog: map<string, CatalogProduct>, users: map<string, User>, userId: string, req: CreateRequest): (r: Reply<Draft>)
    ensures !ItemsGiven(req) ==> r == Err(400, "Items are required")
    ensures ItemsGiven(req) && ParseMethod(req.paymentMethod).None? ==> r == Err(400, "Invalid payment method")
    ensures ItemsGiven(req) && ParseMethod(req.paymentMethod).Some? && !AllKnownAndDistinct(req.items.value, catalog)
            ==> r == Err(400, "Some products not found")
    ensures (ItemsGiven(req) && ParseMethod(req.paymentMethod).Some? && AllKnownAndDistinct(req.items.value, catalog)
             && userId !in users) ==> r == Err(404, "User not found")
    ensures (ItemsGiven(req) && ParseMethod(req.paymentMethod).Some? && AllKnownAndDistinct(req.items.value, catalog)
             && userId in users && !ProfileComplete(users[userId])) ==> r == Err(400, "Please fill phone and address")
    ensures r.Ok? ==> ItemsGiven(req) && AllKnownAndDistinct(req.items.value, catalog)
                      && userId in users && ProfileComplete(users[userId])
    ensures r.Ok? ==> Some(r.value.payment) == ParseMethod(req.paymentMethod)
    ensures r.Ok? ==> r.value.shippingFee == (if req.shippingFee.Some? then req.shippingFee.value else DefaultShippingFee)
    ensures r.Ok? ==> r.value.items == Snapshots(req.items.value, catalog)
    ensures r.Ok? ==> r.value.total == ItemsTotal(r.value.items) + r.value.shippingFee
    ensures r.Ok? ==> NewOrder(InitialFields(userId, r.value), 0).Some?
    ensures r.Ok? <==> Placeable(catalog, users, userId, req)
  {
    if !ItemsGiven(req) then Err(400, "Items are required")
    else if ParseMethod(req.paymentMethod).None? then Err(400, "Invalid payment method")
    else
      var items := req.items.value;
      FoundCountMatches(items, catalog);
      if |FoundIds(items, catalog)| != |items| then Err(400, "Some products not found")
      else
        var lines := Snapshots(items, catalog);
        var fee := if req.shippingFee.Some? then req.shippingFee.value else DefaultShippingFee;
        var d := Draft(lines, ItemsTotal(lines) + fee, fee, ParseMethod(req.paymentMethod).value);
        ParseMethodName(d.payment);
        SnapshotsValid(items, catalog);
        if userId !in users then Err(404, "User not found")
        else if !ProfileComplete(users[userId]) then Err(400, "Please fill phone and address")
        else if NewOrder(InitialFields(userId, d), 0).None? then Err(500, "Failed to place order")
        else Ok(d)
  }

  /**
   * POST `/` with `Product` bound to `b`: the two request checks run before the `try`;
   * the first statement inside it is `Product.find`, which throws unless `Product` is a
   * collection, and the `catch` answers 500.
   */
  function PlanWith(b: Binding, catalog: map<string, CatalogProduct>, users: map<string, User>, userId: string,
                    req: CreateRequest): (r: Reply<Draft>)
    ensures !ItemsGiven(req) ==> r == Err(400, "Items are required")
    ensures ItemsGiven(req) && ParseMethod(req.paymentMethod).None? ==> r == Err(400, "Invalid payment method")
    ensures !HasModelMethods(b) && ItemsGiven(req) && ParseMethod(req.paymentMethod).Some? ==>
              r == Err(500, "Failed to place order")
    ensures HasModelMethods(b) ==> r == Plan(catalog, users, userId, req)
    ensures HasModelMethods(b) ==> (r.Ok? <==> Placeable(catalog, users, userId, req))
  {
    if !HasModelMethods(b) && ItemsGiven(req) && ParseMethod(req.paymentMethod).Some? then Err(500, "Failed to place order")
    else Plan(catalog, users, userId, req)
  }

  /** As imported, no request places an order: each one is refused, with 500 once it passes the two checks. */
  lemma AsImportedPlacesNoOrder(catalog: map<string, CatalogProduct>, users: map<string, User>, userId: string,
                                req: CreateRequest)
    ensures PlanWith(AsImported, catalog, users, userId, req).Err?
    ensures ItemsGiven(req) && ParseMethod(req.paymentMethod).Some? ==>
              PlanWith(AsImported, catalog, users, userId, req) == Err(500, "Failed to place order")
  {
  }

  /** The order a successful creation stores. */
  function Placed(userId: string, d: Draft, now: int): (o: Order)
    requires NewOrder(InitialFields(userId, d), now).Some?
    ensures o.user == userId && o.items == d.items && o.total == d.total && o.shippingFee == d.shippingFee
    ensures o.paymentMethod == d.payment
    ensures d.payment == COD ==> o.status == "Pending" && !o.isPaid
    ensures d.payment != COD ==> o.status == "Created" && o.isPaid
    ensures o.paidAt.None? && o.paymentResult.None? && o.createdAt == now
  {
    var o := NewOrder(InitialFields(userId, d), now).value;
    assert MethodName(o.paymentMethod) == MethodName(d.payment);
    o
  }

  /** The ledger record a successful creation appends. */
  function PlacedPayment(orderId: string, userId: string, d: Draft): (p: Payment)
    requires orderId != "" && userId != ""
    ensures p.order == orderId && p.user == userId && p.amount == d.total
    ensures p.payMethod == LedgerMethodOf(d.payment)
    ensures p.status == (if d.payment == COD then Pending else Paid)
  {
    NewPayment(orderId, userId, Some(LedgerMethodOf(d.payment)), Some(d.total),
               Some(if d.payment == COD then Pending else Paid)).value
  }

  /** The gateway session: requested for CARD and UPI only, in paise, in INR, with the order id as receipt. */
  function SessionFor(orderId: string, d: Draft, gatewayOrder: (int, string, string) -> string, keyId: Option<string>): (s: Option<Session>)
    ensures s.None? <==> d.payment == COD
    ensures s.Some? ==> s.value.kind == "razorpay" && s.value.amount == d.total * 100 && s.value.currency == "INR"
                        && s.value.gatewayOrderId == gatewayOrder(d.total * 100, "INR", orderId) && s.value.key == keyId
  {
    if d.payment == COD then None
    else Some(Session("razorpay", gatewayOrder(d.total * 100, "INR", orderId), d.total * 100, "INR", keyId))
  }

  /** The user record after a successful creation: the order counter goes up by one. */
  function Bumped(u: User): (v: User)
    ensures v.orders == Some(NextOrderCount(u.orders))
    ensures v.(orders := u.orders) == u
  {
    u.(orders := Some(NextOrderCount(u.orders)))
  }

  // ------------------------------------------------------------- settlement

  /** The fields every settlement path assigns: paid, "Processing", the payment result and the time. */
  function Settle(o: Order, result: PaymentResult, now: int): (r: Order)
    ensures r.isPaid && r.status == "Processing" && r.paymentResult == Some(result) && r.paidAt == Some(now)
    ensures r.(isPaid := o.isPaid, status := o.status, paymentResult := o.paymentResult, paidAt := o.paidAt) == o
  {
    o.(isPaid := true, paidAt := Some(now), status := "Processing", paymentResult := Some(result))
  }

  /** Settling again with the same result only rewrites the payment time. */
  lemma SettleTwice(o: Order, result: PaymentResult, t1: int, t2: int)
    ensures Settle(Settle(o, result, t1), result, t2) == Settle(o, result, t2)
    ensures Settle(Settle(o, result, t1), result, t2) == Settle(o, result, t1).(paidAt := Some(t2))
  {
  }

  /** `Payment.findOne({ order })`: the first ledger record for an order. */
  function FindLedger(ps: seq<Payment>, orderId: string): (r: Option<nat>)
    ensures r.Some? ==> r.value < |ps| && ps[r.value].order == orderId
    ensures r.Some? ==> forall j :: 0 <= j < r.value ==> ps[j].order != orderId
    ensures r.None? <==> forall j :: 0 <= j < |ps| ==> ps[j].order != orderId
    decreases |ps|
  {
    if ps == [] then None
    else if ps[0].order == orderId then Some(0)
    else
      match FindLedger(ps[1..], orderId)
      case None => None
      case Some(k) => Some(k + 1)
  }

  /** The ledger after `payment.status = "Paid"; payment.method = m` on the first matching record, if any. */
  function SettleLedger(ps: seq<Payment>, orderId: string, m: LedgerMethod): (r: seq<Payment>)
    ensures |r| == |ps|
    ensures forall i :: 0 <= i < |ps| ==> r[i].order == ps[i].order && r[i].user == ps[i].user && r[i].amount == ps[i].amount
    ensures FindLedger(ps, orderId).None? ==> r == ps
    ensures FindLedger(ps, orderId).Some? ==>
              var k := FindLedger(ps, orderId).value;
              r[k].status == Paid && r[k].payMethod == m && forall i :: 0 <= i < |ps| && i != k ==> r[i] == ps[i]
  {
    match FindLedger(ps, orderId)
    case None => ps
    case Some(k) => ps[k := ps[k].(status := Paid, payMethod := m)]
  }

  /** Every ledger record refers to a stored order, and no order has two records. */
  ghost predicate LedgerWellFormed(orders: map<string, Order>, ps: seq<Payment>)
  {
    (forall i :: 0 <= i < |ps| ==> ps[i].order in orders)
    && (forall i, j :: 0 <= i < j < |ps| ==> ps[i].order != ps[j].order)
  }

  /** The ledger says Paid exactly for the orders marked paid. */
  ghost predicate Mirrored(orders: map<string, Order>, ps: seq<Payment>)
  {
    forall i :: 0 <= i < |ps| && ps[i].order in orders ==> (ps[i].status == Paid <==> orders[ps[i].order].isPaid)
  }

  /** Creation keeps the ledger well formed and mirrored. */
  lemma CreateKeepsLedger(orders: map<string, Order>, ps: seq<Payment>, id: string, o: Order, p: Payment)
    requires LedgerWellFormed(orders, ps) && id !in orders
    requires p.order == id && (p.status == Paid <==> o.isPaid)
    ensures LedgerWellFormed(orders[id := o], ps + [p])
    ensures Mirrored(orders, ps) ==> Mirrored(orders[id := o], ps + [p])
  {
    var ps' := ps + [p];
    forall i | 0 <= i < |ps'| ensures ps'[i].order in orders[id := o] {
      if i < |ps| {
        assert ps'[i] == ps[i];
      }
    }
    forall i, j | 0 <= i < j < |ps'| ensures ps'[i].order != ps'[j].order {
      assert ps'[i] == ps[i];
      if j < |ps| {
        assert ps'[j] == ps[j];
      }
    }
    if Mirrored(orders, ps) {
      forall i | 0 <= i < |ps'| && ps'[i].order in orders[id := o]
        ensures ps'[i].status == Paid <==> orders[id := o][ps'[i].order].isPaid
      {
        if i < |ps| {
          assert ps'[i] == ps[i];
          assert ps[i].order in orders;
        }
      }
    }
  }

  /** Settling an order together with its ledger record keeps the ledger well formed and mirrored. */
  lemma SettleKeepsLedger(orders: map<string, Order>, ps: seq<Payment>, id: string, o: Order, m: LedgerMethod)
    requires LedgerWellFormed(orders, ps) && id in orders && o.isPaid
    ensures LedgerWellFormed(orders[id := o], SettleLedger(ps, id, m))
    ensures Mirrored(orders, ps) ==> Mirrored(orders[id := o], SettleLedger(ps, id, m))
  {
    var ps' := SettleLedger(ps, id, m);
    if Mirrored(orders, ps) {
      forall i | 0 <= i < |ps'| && ps'[i].order in orders[id := o]
        ensures ps'[i].status == Paid <==> orders[id := o][ps'[i].order].isPaid
      {
        if ps'[i].order == id {
          assert FindLedger(ps, id).Some?;
          assert FindLedger(ps, id).value == i;
        } else {
          assert ps'[i] == ps[i];
        }
      }
    }
  }

  /** A change that leaves every `isPaid` flag alone keeps the ledger well formed and mirrored. */
  lemma SamePaidFlagKeepsLedger(orders: map<string, Order>, ps: seq<Payment>, id: string, o: Order)
    requires LedgerWellFormed(orders, ps) && id in orders && o.isPaid == orders[id].isPaid
    ensures LedgerWellFormed(orders[id := o], ps)
    ensures Mirrored(orders, ps) ==> Mirrored(orders[id := o], ps)
  {
  }

  // ------------------------------------------------------- client verification

  /** The body of POST `/verify`. */
  datatype VerifyRequest = VerifyRequest(gatewayOrderId: Option<string>, paymentId: Option<string>, signature: Option<string>, orderId: Option<string>)

  /** `razorpay_order_id + "|" + razorpay_payment_id`, with a missing part printed as "undefined". */
  function SignedText(req: VerifyRequest): string
  {
    JsString(req.gatewayOrderId) + "|" + JsString(req.paymentId)
  }

  /**
   * The checks of POST `/verify`, in order, answering the id of the order to settle.
   * An unset key secret makes the HMAC constructor throw, which the handler answers with 500.
   */
  function VerifyDecision(req: VerifyRequest, keySecret: Option<string>, hmac: (string, string) -> string, orders: map<string, Order>): (r: Reply<string>)
    ensures !TruthyString(req.signature) ==> r == Err(400, "Missing payment verification data")
    ensures TruthyString(req.signature) && keySecret.None? ==> r == Err(500, "Payment verification failed")
    ensures TruthyString(req.signature) && keySecret.Some? && hmac(keySecret.value, SignedText(req)) != req.signature.value
            ==> r == Err(400, "Invalid payment signature")
    ensures r.Ok? <==> TruthyString(req.signature) && keySecret.Some? && hmac(keySecret.value, SignedText(req)) == req.signature.value
                       && req.orderId.Some? && req.orderId.value in orders
    ensures r.Ok? ==> r.value == req.orderId.value
    ensures (TruthyString(req.signature) && keySecret.Some? && hmac(keySecret.value, SignedText(req)) == req.signature.value
             && (req.orderId.None? || req.orderId.value !in orders)) ==> r == Err(404, "Order not found")
    ensures r.Err? && r.code == 404 ==> r.message == "Order not found"
  {
    if !TruthyString(req.signature) then Err(400, "Missing payment verification data")
    else if keySecret.None? then Err(500, "Payment verification failed")
    else if hmac(keySecret.value, SignedText(req)) != req.signature.value then Err(400, "Invalid payment signature")
    else if req.orderId.None? || req.orderId.value !in orders then Err(404, "Order not found")
    else Ok(req.orderId.value)
  }

  /** The payment result recorded from the client's evidence. */
  function ClientResult(req: VerifyRequest): (pr: PaymentResult)
    requires req.signature.Some?
    ensures pr.id == req.paymentId && pr.status == "Paid"
    ensures pr.details == ClientEvidence(req.gatewayOrderId, req.signature.value)
  {
    PaymentResult(req.paymentId, "Paid", ClientEvidence(req.gatewayOrderId, req.signature.value))
  }

  /** `manual_${Date.now()}`. */
  function ManualId(now: nat): (id: string)
    ensures StartsWith(id, "manual_") && |id| > |"manual_"|
  {
    "manual_" + Decimal(now)
  }

  // ------------------------------------------------------------------ webhook

  /** The parsed webhook body: the event name and `payload.payment.entity`, `None` when absent. */
  datatype WebhookEvent = WebhookEvent(event: Option<string>, payment: Option<PaymentEntity>)

  /** `payment.notes?.orderId || payment.receipt`, `None` when that is falsy. */
  function Correlator(e: PaymentEntity): (r: Option<string>)
    ensures TruthyString(e.notesOrderId) ==> r == e.notesOrderId
    ensures !TruthyString(e.notesOrderId) && TruthyString(e.receipt) ==> r == e.receipt
    ensures !TruthyString(e.notesOrderId) && !TruthyString(e.receipt) ==> r.None?
    ensures r.Some? ==> r.value != ""
  {
    if TruthyString(e.notesOrderId) then e.notesOrderId
    else if TruthyString(e.receipt) then e.receipt
    else None
  }

  /**
   * The webhook's decision: `Err` for a bad signature (400) or a body it cannot read (500),
   * otherwise `Ok` with the order to mark paid, or `Ok(None)` when nothing changes.
   */
  function WebhookDecision(signature: Option<string>, body: string, secretEnv: Option<string>,
                           hmac: (string, string) -> string, parse: string -> Option<WebhookEvent>,
                           orders: map<string, Order>): (r: Reply<Option<(string, PaymentEntity)>>)
    ensures signature != Some(hmac(OrString(secretEnv, ""), body)) ==> r == Err(400, "Invalid signature")
    ensures r.Ok? && r.value.Some? ==>
              signature == Some(hmac(OrString(secretEnv, ""), body))
              && parse(body).Some? && parse(body).value.event == Some("payment.captured")
              && parse(body).value.payment == Some(r.value.value.1)
              && Correlator(r.value.value.1) == Some(r.value.value.0) && r.value.value.0 in orders
    ensures (signature == Some(hmac(OrString(secretEnv, ""), body)) && parse(body).Some?
             && parse(body).value.event != Some("payment.captured")) ==> r == Ok(None)
    ensures (signature == Some(hmac(OrString(secretEnv, ""), body)) && parse(body).Some?
             && parse(body).value.event == Some("payment.captured") && parse(body).value.payment.Some?) ==>
              var e := parse(body).value.payment.value;
              && r.Ok?
              && (r.value.Some? <==> Correlator(e).Some? && Correlator(e).value in orders)
              && (r.value.Some? ==> r.value.value == (Correlator(e).value, e))
    ensures (signature == Some(hmac(OrString(secretEnv, ""), body))
             && (parse(body).None? || (parse(body).value.event == Some("payment.captured") && parse(body).value.payment.None?)))
            ==> r == Err(500, "Server error")
    ensures r.Err? ==> r.code == 400 || r == Err(500, "Server error")
  {
    if signature != Some(hmac(OrString(secretEnv, ""), body)) then Err(400, "Invalid signature")
    else match parse(body)
      case None => Err(500, "Server error")
      case Some(ev) =>
        if ev.event != Some("payment.captured") then Ok(None)
        else match ev.payment
          case None => Err(500, "Server error")
          case Some(entity) =>
            match Correlator(entity)
            case None => Ok(None)
            case Some(id) => if id in orders then Ok(Some((id, entity))) else Ok(None)
  }

  /** The payment result the webhook records. */
  function CapturedResult(e: PaymentEntity): (pr: PaymentResult)
    ensures pr.id == e.id && pr.status == "Captured" && pr.details == GatewayEntity(e)
  {
    PaymentResult(e.id, "Captured", GatewayEntity(e))
  }

  /** A verified, captured event for a stored order is the only webhook delivery that changes anything. */
  lemma WebhookChangesOnlyCaptured(signature: Option<string>, body: string, secretEnv: Option<string>,
                                   hmac: (string, string) -> string, parse: string -> Option<WebhookEvent>,
                                   orders: map<string, Order>)
    requires parse(body).Some? && parse(body).value.event != Some("payment.captured")
    ensures WebhookDecision(signature, body, secretEnv, hmac, parse, orders).Ok? ==>
              WebhookDecision(signature, body, secretEnv, hmac, parse, orders).value.None?
  {
  }

  /**
   * The webhook marks an order paid without touching its ledger record, so an unpaid
   * COD order captured through the gateway is paid while its ledger record stays Pending.
   */
  lemma WebhookCanDesyncLedger()
    ensures exists orders: map<string, Order>, ps: seq<Payment>, id: string, pr: PaymentResult, now: int ::
              id in orders && LedgerWellFormed(orders, ps) && Mirrored(orders, ps)
              && !Mirrored(orders[id := Settle(orders[id], pr, now)], ps)
  {
    var o := Order("u1", [], 549, 49, COD, "Pending", false, None, None, 0);
    var orders := map["o1" := o];
    var ps := [Payment("o1", "u1", Cod, 549, Pending)];
    var pr := CapturedResult(PaymentEntity(Some("pay_1"), Some("o1"), None));
    var after := orders["o1" := Settle(o, pr, 1)];
    assert ps[0].order in after && ps[0].status != Paid && after[ps[0].order].isPaid;
    assert LedgerWellFormed(orders, ps) && Mirrored(orders, ps);
    assert "o1" in orders && LedgerWellFormed(orders, ps) && Mirrored(orders, ps)
           && !Mirrored(orders["o1" := Settle(orders["o1"], pr, 1)], ps);
  }

  /** When the captured order was already paid, the webhook keeps the ledger mirrored. */
  lemma WebhookOnPaidKeepsLedger(orders: map<string, Order>, ps: seq<Payment>, id: string, e: PaymentEntity, now: int)
    requires LedgerWellFormed(orders, ps) && Mirrored(orders, ps) && id in orders && orders[id].isPaid
    ensures LedgerWellFormed(orders[id := Settle(orders[id], CapturedResult(e), now)], ps)
    ensures Mirrored(orders[id := Settle(orders[id], CapturedResult(e), now)], ps)
  {
    SamePaidFlagKeepsLedger(orders, ps, id, Settle(orders[id], CapturedResult(e), now));
  }

  // ------------------------------------------------------------- admin status

  /** The statuses the admin endpoint accepts. */
  predicate IsAdminStatus(s: string)
  {
    s == "Pending" || s == "Shipped" || s == "Delivered" || s == "Completed" || s == "Cancelled"
  }

  /** The states creation and settlement enter can never be chosen by an admin. */
  lemma AdminStatusExcludesLifecycle(s: string)
    requires IsAdminStatus(s)
    ensures s != "Processing" && s != "Created"
  {
  }

  /** The checks of PATCH `/:id/status`: the status value first, then the order. */
  function StatusDecision(orders: map<string, Order>, id: string, status: Option<string>): (r: Reply<string>)
    ensures status.None? || !IsAdminStatus(status.value) ==> r == Err(400, "Invalid status value")
    ensures status.Some? && IsAdminStatus(status.value) && id !in orders ==> r == Err(404, "Order not found")
    ensures r.Ok? <==> status.Some? && IsAdminStatus(status.value) && id in orders
    ensures r.Ok? ==> r.value == status.value
  {
    if status.None? || !IsAdminStatus(status.value) then Err(400, "Invalid status value")
    else if id !in orders then Err(404, "Order not found")
    else Ok(status.value)
  }

  /** Any admin status may replace any current one: no transition graph is enforced. */
  lemma AnyAdminStatusApplies(orders: map<string, Order>, id: string, s: string)
    requires id in orders && IsAdminStatus(s)
    ensures StatusDecision(orders, id, Some(s)) == Ok(s)
  {
  }

  // ---------------------------------------------------------------- listings

  function CreatedAt(o: Order): int
  {
    o.createdAt
  }

  /** GET `/all`: every order, newest first. */
  function AllOrders(docs: seq<Order>): (r: seq<Order>)
    ensures NewestFirst(r, CreatedAt)
    ensures multiset(r) == multiset(docs)
  {
    SortNewestFirst(docs, CreatedAt)
  }

  function BelongsTo(userId: string): Order -> bool
  {
    (o: Order) => o.user == userId
  }

  /** The caller's orders, newest first. */
  function MineNewestFirst(docs: seq<Order>, userId: string): seq<Order>
  {
    SortNewestFirst(Filter(docs, BelongsTo(userId)), CreatedAt)
  }

  lemma MineNewestFirstContents(docs: seq<Order>, userId: string)
    ensures forall o :: o in MineNewestFirst(docs, userId) <==> o in docs && o.user == userId
  {
    var mine := Filter(docs, BelongsTo(userId));
    var sorted := MineNewestFirst(docs, userId);
    forall o ensures o in sorted <==> o in mine {
      assert o in sorted <==> o in multiset(sorted);
      assert o in mine <==> o in multiset(mine);
    }
  }

  /** The head of the caller's orders, newest first, is at least as recent as every one of them. */
  lemma LatestIsNewest(docs: seq<Order>, userId: string)
    requires MineNewestFirst(docs, userId) != []
    ensures forall i :: 0 <= i < |docs| && docs[i].user == userId ==>
              docs[i].createdAt <= MineNewestFirst(docs, userId)[0].createdAt
  {
    var sorted := MineNewestFirst(docs, userId);
    MineNewestFirstContents(docs, userId);
    forall i | 0 <= i < |docs| && docs[i].user == userId ensures docs[i].createdAt <= sorted[0].createdAt {
      assert docs[i] in sorted;
      var k :| 0 <= k < |sorted| && sorted[k] == docs[i];
      if k > 0 {
        assert CreatedAt(sorted[0]) >= CreatedAt(sorted[k]);
      }
    }
  }

  /** GET `/latest`: the caller's most recent order, or 404 when there is none. */
  function Latest(docs: seq<Order>, userId: string): (r: Reply<Order>)
    ensures r.Err? <==> forall i :: 0 <= i < |docs| ==> docs[i].user != userId
    ensures r.Err? ==> r == Err(404, "No orders found")
    ensures r.Ok? ==> r.value in docs && r.value.user == userId
    ensures r.Ok? ==> forall i :: 0 <= i < |docs| && docs[i].user == userId ==> docs[i].createdAt <= r.value.createdAt
  {
    var sorted := MineNewestFirst(docs, userId);
    MineNewestFirstContents(docs, userId);
    if sorted == [] then
      assert forall i :: 0 <= i < |docs| ==> docs[i].user != userId by {
        forall i | 0 <= i < |docs| ensures docs[i].user != userId {
          assert docs[i] in docs;
        }
      }
      Err(404, "No orders found")
    else
      LatestIsNewest(docs, userId);
      assert sorted[0] in sorted;
      Ok(sorted[0])
  }

  // ------------------------------------------------------------------- store

  /** The Order, Payment, User and Product collections the handlers read and write. */
  class Store {
    var catalog: map<string, CatalogProduct>
    var users: map<string, User>
    var orders: map<string, Order>
    var payments: seq<Payment>

    ghost predicate Valid()
      reads this
    {
      LedgerWellFormed(orders, payments)
    }

    /** The ledger agrees with the orders about which are paid. */
    ghost predicate Consistent()
      reads this
    {
      Mirrored(orders, payments)
    }

    constructor (catalog: map<string, CatalogProduct>, users: map<string, User>)
      ensures Valid() && Consistent()
      ensures this.catalog == catalog && this.users == users && orders == map[] && payments == []
    {
      this.catalog := catalog;
      this.users := users;
      orders := map[];
      payments := [];
    }

    /** POST `/`: validate, snapshot, then write the order, the user counter and the ledger record. */
    method CreateOrder(binding: Binding, userId: string, req: CreateRequest, newId: string, now: int,
                       gatewayOrder: (int, string, string) -> string, keyId: Option<string>)
      returns (r: Reply<Created>)
      requires Valid()
      requires newId != "" && newId !in orders
      modifies this
      ensures Valid()
      ensures old(Consistent()) ==> Consistent()
      ensures catalog == old(catalog)
      ensures PlanWith(binding, old(catalog), old(users), userId, req).Err? ==>
                r == Err(PlanWith(binding, old(catalog), old(users), userId, req).code,
                         PlanWith(binding, old(catalog), old(users), userId, req).message)
                && orders == old(orders) && payments == old(payments) && users == old(users)
      ensures PlanWith(binding, old(catalog), old(users), userId, req).Ok? ==>
                var d := PlanWith(binding, old(catalog), old(users), userId, req).value;
                && orders == old(orders)[newId := Placed(userId, d, now)]
                && users == old(users)[userId := Bumped(old(users)[userId])]
                && payments == old(payments) + [PlacedPayment(newId, userId, d)]
                && r == Ok(Created(newId, SessionFor(newId, d, gatewayOrder, keyId)))
      ensures HasModelMethods(binding) && Placeable(old(catalog), old(users), userId, req) ==>
                r.Ok? && newId in orders && orders[newId].user == userId && |payments| == |old(payments)| + 1
    {
      var plan := PlanWith(binding, catalog, users, userId, req);
      if plan.Err? {
        return Err(plan.code, plan.message);
      }
      var d := plan.value;
      assert NewOrder(InitialFields(userId, d), now).Some?;
      var o := Placed(userId, d, now);
      var p := PlacedPayment(newId, userId, d);
      CreateKeepsLedger(orders, payments, newId, o, p);
      orders := orders[newId := o];
      users := users[userId := Bumped(users[userId])];
      payments := payments + [p];
      r := Ok(Created(newId, SessionFor(newId, d, gatewayOrder, keyId)));
    }

    /** POST `/verify`: the client relays the gateway's signature; a match settles the order and its ledger record. */
    method Verify(req: VerifyRequest, keySecret: Option<string>, hmac: (string, string) -> string, now: int)
      returns (r: Reply<Order>)
      requires Valid()
      modifies this
      ensures Valid()
      ensures old(Consistent()) ==> Consistent()
      ensures catalog == old(catalog) && users == old(users)
      ensures VerifyDecision(req, keySecret, hmac, old(orders)).Err? ==>
                r.Err? && orders == old(orders) && payments == old(payments)
                && r == Err(VerifyDecision(req, keySecret, hmac, old(orders)).code, VerifyDecision(req, keySecret, hmac, old(orders)).message)
      ensures VerifyDecision(req, keySecret, hmac, old(orders)).Ok? ==>
                var id := req.orderId.value;
                && orders == old(orders)[id := Settle(old(orders)[id], ClientResult(req), now)]
                && payments == SettleLedger(old(payments), id, LedgerMethodOf(old(orders)[id].paymentMethod))
                && r == Ok(orders[id])
    {
      var decision := VerifyDecision(req, keySecret, hmac, orders);
      if decision.Err? {
        return Err(decision.code, decision.message);
      }
      var id := decision.value;
      var o := Settle(orders[id], ClientResult(req), now);
      SettleKeepsLedger(orders, payments, id, o, LedgerMethodOf(orders[id].paymentMethod));
      payments := SettleLedger(payments, id, LedgerMethodOf(orders[id].paymentMethod));
      orders := orders[id := o];
      r := Ok(o);
    }

    /** POST `/:id/pay`: settles an order as paid on delivery; no signature is checked. */
    method PayCod(id: string, now: nat) returns (r: Reply<string>)
      requires Valid()
      modifies this
      ensures Valid()
      ensures old(Consistent()) ==> Consistent()
      ensures catalog == old(catalog) && users == old(users)
      ensures id !in old(orders) ==> r == Err(404, "Order not found") && orders == old(orders) && payments == old(payments)
      ensures id in old(orders) ==>
                && orders == old(orders)[id := Settle(old(orders)[id], PaymentResult(Some(ManualId(now)), "COD Paid", NoDetails), now)]
                && payments == SettleLedger(old(payments), id, Cod)
                && r == Ok("COD Payment marked as paid")
    {
      if id !in orders {
        return Err(404, "Order not found");
      }
      var o := Settle(orders[id], PaymentResult(Some(ManualId(now)), "COD Paid", NoDetails), now);
      SettleKeepsLedger(orders, payments, id, o, Cod);
      payments := SettleLedger(payments, id, Cod);
      orders := orders[id := o];
      r := Ok("COD Payment marked as paid");
    }

    /** POST `/razorpay`: a verified captured event marks the correlated order paid; the ledger is never touched. */
    method Webhook(signature: Option<string>, body: string, secretEnv: Option<string>,
                   hmac: (string, string) -> string, parse: string -> Option<WebhookEvent>, now: int)
      returns (r: Reply<bool>)
      requires Valid()
      modifies this
      ensures Valid()
      ensures catalog == old(catalog) && users == old(users) && payments == old(payments)
      ensures WebhookDecision(signature, body, secretEnv, hmac, parse, old(orders)).Err? ==>
                orders == old(orders)
                && r == Err(WebhookDecision(signature, body, secretEnv, hmac, parse, old(orders)).code,
                            WebhookDecision(signature, body, secretEnv, hmac, parse, old(orders)).message)
      ensures WebhookDecision(signature, body, secretEnv, hmac, parse, old(orders)) == Ok(None) ==>
                orders == old(orders) && r == Ok(true)
      ensures WebhookDecision(signature, body, secretEnv, hmac, parse, old(orders)).Ok?
              && WebhookDecision(signature, body, secretEnv, hmac, parse, old(orders)).value.Some? ==>
                var (id, e) := WebhookDecision(signature, body, secretEnv, hmac, parse, old(orders)).value.value;
                orders == old(orders)[id := Settle(old(orders)[id], CapturedResult(e), now)] && r == Ok(true)
    {
      var decision := WebhookDecision(signature, body, secretEnv, hmac, parse, orders);
      if decision.Err? {
        return Err(decision.code, decision.message);
      }
      if decision.value.Some? {
        var (id, e) := decision.value.value;
        orders := orders[id := Settle(orders[id], CapturedResult(e), now)];
      }
      r := Ok(true);
    }

    /** PATCH `/:id/status`: only `status` changes. */
    method UpdateStatus(id: string, status: Option<string>) returns (r: Reply<Order>)
      requires Valid()
      modifies this
      ensures Valid()
      ensures old(Consistent()) ==> Consistent()
      ensures catalog == old(catalog) && users == old(users) && payments == old(payments)
      ensures StatusDecision(old(orders), id, status).Err? ==>
                orders == old(orders)
                && r == Err(StatusDecision(old(orders), id, status).code, StatusDecision(old(orders), id, status).message)
      ensures StatusDecision(old(orders), id, status).Ok? ==>
                orders == old(orders)[id := old(orders)[id].(status := status.value)] && r == Ok(orders[id])
    {
      var decision := StatusDecision(orders, id, status);
      if decision.Err? {
        return Err(decision.code, decision.message);
      }
      var o := orders[id].(status := decision.value);
      SamePaidFlagKeepsLedger(orders, payments, id, o);
      orders := orders[id := o];
      r := Ok(o);
    }
  }

  /** A two-line COD order at the default fee: 2 × 500 + 1 × 0 + 49. */
  lemma CodOrderExample()
    ensures var catalog := map["p1" := CatalogProduct("Kurti", 500, "k.jpg", []), "p2" := CatalogProduct("Dupatta", 0, "", ["d.jpg"])];
            var users := map["u1" := User("Asha", "a@x.in", None, "h", "98", Address("12 MG Rd", "Pune", "MH", "411001"), None, 0)];
            var req := CreateRequest(Some([ItemRequest("p1", 2), ItemRequest("p2", 1)]), None, Some("COD"));
            Plan(catalog, users, "u1", req).Ok? && Plan(catalog, users, "u1", req).value.total == 1049
            && Plan(catalog, users, "u1", req).value.items[1].mainImage == "d.jpg"
  {
    var catalog := map["p1" := CatalogProduct("Kurti", 500, "k.jpg", []), "p2" := CatalogProduct("Dupatta", 0, "", ["d.jpg"])];
    var req := CreateRequest(Some([ItemRequest("p1", 2), ItemRequest("p2", 1)]), None, Some("COD"));
    var items := req.items.value;
    assert RequestedIds(items) == ["p1", "p2"];
    assert AllKnownAndDistinct(items, catalog);
    var lines := Snapshots(items, catalog);
    assert lines[0].price == 500 && lines[0].quantity == 2 && lines[1].price == 0;
    assert lines[1..][1..] == [];
    assert ItemsTotal(lines[1..][1..]) == 0;
    assert ItemsTotal(lines[1..]) == 0;
    assert ItemsTotal(lines) == 1000;
    var users := map["u1" := User("Asha", "a@x.in", None, "h", "98", Address("12 MG Rd", "Pune", "MH", "411001"), None, 0)];
    assert ProfileComplete(users["u1"]);
    var d := Draft(lines, 1049, 49, COD);
    assert lines[0].name == "Kurti" && lines[1].name == "Dupatta" && lines[0].product == "p1" && lines[1].product == "p2";
    assert NewOrder(InitialFields("u1", d), 0).Some?;
    FoundCountMatches(items, catalog);
    assert ParseMethod(req.paymentMethod) == Some(COD);
    assert Plan(catalog, users, "u1", req) == Ok(d);
    assert lines[1].mainImage == "d.jpg";
  }
  /**
   * The same order under both bindings of `Product`: the product collection places it
   * for 1049, while the handler as imported answers 500 and places nothing.
   */
  lemma CodOrderAsImported()
    ensures var catalog := map["p1" := CatalogProduct("Kurti", 500, "k.jpg", []), "p2" := CatalogProduct("Dupatta", 0, "", ["d.jpg"])];
            var users := map["u1" := User("Asha", "a@x.in", None, "h", "98", Address("12 MG Rd", "Pune", "MH", "411001"), None, 0)];
            var req := CreateRequest(Some([ItemRequest("p1", 2), ItemRequest("p2", 1)]), None, Some("COD"));
            && PlanWith(ProductCollection, catalog, users, "u1", req).Ok?
            && PlanWith(ProductCollection, catalog, users, "u1", req).value.total == 1049
            && PlanWith(AsImported, catalog, users, "u1", req) == Err(500, "Failed to place order")
  {
    CodOrderExample();
  }
}
