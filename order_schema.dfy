/**
 * The Order and Payment records (Backend/models/Order.js and Backend/models/Payment.js):
 * field types, the enumerations they admit and the defaults Mongoose fills in.
 */
module OrderSchema {
  import opened Wrappers

  /** The payment methods an order may carry. */
  datatype Method = COD | UPI | CARD

  function MethodName(m: Method): string
  {
    match m
    case COD => "COD"
    case UPI => "UPI"
    case CARD => "CARD"
  }

  /** Membership in the `paymentMethod` enumeration, read back as a `Method`. */
  function ParseMethod(s: Option<string>): (m: Option<Method>)
    ensures m.Some? <==> s.Some? && (s.value == "COD" || s.value == "UPI" || s.value == "CARD")
    ensures m.Some? ==> MethodName(m.value) == s.value
  {
    if s == Some("COD") then Some(COD)
    else if s == Some("UPI") then Some(UPI)
    else if s == Some("CARD") then Some(CARD)
    else None
  }

  /** Every method survives the trip to its stored name and back. */
  lemma ParseMethodName(m: Method)
    ensures ParseMethod(Some(MethodName(m))) == Some(m)
  {
  }

  /** A line item: product reference, copied name and price, quantity and thumbnail. */
  datatype OrderItem = OrderItem(product: string, name: string, price: int, quantity: int, mainImage: string)

  /** `required: true` on a String rejects the empty string; the numbers are always present here. */
  predicate ItemValid(it: OrderItem)
  {
    it.product != "" && it.name != ""
  }

  /** `mainImage: { default: "" }`. */
  function ItemImage(supplied: Option<string>): (s: string)
    ensures supplied.Some? ==> s == supplied.value
    ensures supplied.None? ==> s == ""
  {
    if supplied.Some? then supplied.value else ""
  }

  /** The gateway's payment entity, as far as the webhook reads it. */
  datatype PaymentEntity = PaymentEntity(id: Option<string>, notesOrderId: Option<string>, receipt: Option<string>)

  /** `paymentResult.details`: absent, the client's evidence, or the webhook's entity. */
  datatype Details =
    | NoDetails
    | ClientEvidence(gatewayOrderId: Option<string>, signature: string)
    | GatewayEntity(entity: PaymentEntity)

  datatype PaymentResult = PaymentResult(id: Option<string>, status: string, details: Details)

  /** An order document; `status` is a free string and timestamps are opaque integers. */
  datatype Order = Order(
    user: string,
    items: seq<OrderItem>,
    total: int,
    shippingFee: int,
    paymentMethod: Method,
    status: string,
    isPaid: bool,
    paidAt: Option<int>,
    paymentResult: Option<PaymentResult>,
    createdAt: int)

  const DefaultShippingFee: int := 49

  /** The fields a caller may pass to `Order.create`; `None` means the field was left out. */
  datatype OrderFields = OrderFields(
    user: string,
    items: seq<OrderItem>,
    total: Option<int>,
    shippingFee: Option<int>,
    paymentMethod: Option<string>,
    status: Option<string>,
    isPaid: Option<bool>)

  /**
   * Schema validation and defaults: `total` and a valid `paymentMethod` are required,
   * as are the user and each item's required fields; `shippingFee` defaults to 49,
   * `status` to "Pending", `isPaid` to false; no payment has been recorded yet.
   */
  function NewOrder(f: OrderFields, createdAt: int): (r: Option<Order>)
    ensures r.Some? <==> f.user != "" && f.total.Some? && ParseMethod(f.paymentMethod).Some?
                         && forall i :: 0 <= i < |f.items| ==> ItemValid(f.items[i])
    ensures r.Some? ==> r.value.total == f.total.value
                        && r.value.user == f.user && r.value.items == f.items
                        && MethodName(r.value.paymentMethod) == f.paymentMethod.value
                        && r.value.shippingFee == (if f.shippingFee.Some? then f.shippingFee.value else DefaultShippingFee)
                        && r.value.status == (if f.status.Some? then f.status.value else "Pending")
                        && r.value.isPaid == (f.isPaid.Some? && f.isPaid.value)
                        && r.value.paidAt.None? && r.value.paymentResult.None?
                        && r.value.createdAt == createdAt
  {
    var m := ParseMethod(f.paymentMethod);
    if f.user == "" || f.total.None? || m.None? || exists i :: 0 <= i < |f.items| && !ItemValid(f.items[i]) then None
    else
      Some(Order(
        f.user, f.items, f.total.value,
        if f.shippingFee.Some? then f.shippingFee.value else DefaultShippingFee,
        m.value,
        if f.status.Some? then f.status.value else "Pending",
        f.isPaid.Some? && f.isPaid.value,
        None, None, createdAt))
  }

  /** The ledger's `method` enumeration, which adds "Pending" to the order methods. */
  datatype LedgerMethod = Card | Upi | Cod | MethodPending

  /** The ledger's `status` enumeration. */
  datatype LedgerStatus = Paid | Pending

  /** The string the ledger stores for each method. */
  function LedgerMethodName(l: LedgerMethod): string
  {
    match l
    case Card => "CARD"
    case Upi => "UPI"
    case Cod => "COD"
    case MethodPending => "Pending"
  }

  /** `method: paymentMethod`: the ledger records the order's own method string. */
  function LedgerMethodOf(m: Method): (l: LedgerMethod)
    ensures LedgerMethodName(l) == MethodName(m)
    ensures l != MethodPending
  {
    match m
    case COD => Cod
    case UPI => Upi
    case CARD => Card
  }

  /** A Payment ledger record (`payMethod` is the schema's `method`). Nothing in the schema makes `order` unique. */
  datatype Payment = Payment(order: string, user: string, payMethod: LedgerMethod, amount: int, status: LedgerStatus)

  /** `Payment.create`: order, user and amount are required; method and status default to Pending. */
  function NewPayment(order: string, user: string, payMethod: Option<LedgerMethod>, amount: Option<int>, status: Option<LedgerStatus>): (r: Option<Payment>)
    ensures r.Some? <==> order != "" && user != "" && amount.Some?
    ensures r.Some? ==> r.value.order == order && r.value.user == user && r.value.amount == amount.value
    ensures r.Some? ==> r.value.payMethod == (if payMethod.Some? then payMethod.value else MethodPending)
    ensures r.Some? ==> r.value.status == (if status.Some? then status.value else Pending)
  {
    if order == "" || user == "" || amount.None? then None
    else Some(Payment(order, user,
                      if payMethod.Some? then payMethod.value else MethodPending,
                      amount.value,
                      if status.Some? then status.value else Pending))
  }
}
