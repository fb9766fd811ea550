/**
 * The admin dashboard's read-only figures (Backend/routes/dashboardRoutes.js): three
 * collection sizes, payment counts taken from the orders, and the user list.
 */
module Dashboard {
  import opened Listing
  import opened Wrappers
  import opened Accounts
  import opened OrderSchema
  import opened ProductBinding

  datatype Counts = Counts(totalProducts: nat, totalReviews: nat, totalUsers: nat)

  /** GET `/counts`: exactly the sizes of the three collections. */
  function DashboardCounts<P, R, U>(products: seq<P>, reviews: seq<R>, users: seq<U>): (c: Counts)
    ensures c.totalProducts == |products| && c.totalReviews == |reviews| && c.totalUsers == |users|
  {
    Counts(|products|, |reviews|, |users|)
  }

  /**
   * GET `/counts` with `Product` bound to `b`: `Product.countDocuments` is the first
   * call, so only a collection gets past it; otherwise the `catch` answers 500.
   */
  function CountsWith<P, R, U>(b: Binding, products: seq<P>, reviews: seq<R>, users: seq<U>): (r: Reply<Counts>)
    ensures HasModelMethods(b) ==> r == Ok(DashboardCounts(products, reviews, users))
    ensures !HasModelMethods(b) ==> r == Err(500, "Failed to fetch dashboard counts")
  {
    if HasModelMethods(b) then Ok(DashboardCounts(products, reviews, users))
    else Err(500, "Failed to fetch dashboard counts")
  }

  datatype PaymentCounts = PaymentCounts(cod: nat, card: nat, upi: nat, pending: nat)

  predicate IsCod(o: Order) { o.paymentMethod == COD }
  predicate PaidCard(o: Order) { o.paymentMethod == CARD && o.isPaid }
  predicate PaidUpi(o: Order) { o.paymentMethod == UPI && o.isPaid }
  predicate Unpaid(o: Order) { !o.isPaid }
  predicate UnpaidCod(o: Order) { o.paymentMethod == COD && !o.isPaid }

  /** GET `/payments`: every COD order, the paid CARD and UPI orders, and every unpaid order. */
  function OrderPaymentCounts(orders: seq<Order>): (c: PaymentCounts)
    ensures c.cod == Count(orders, IsCod) && c.card == Count(orders, PaidCard)
    ensures c.upi == Count(orders, PaidUpi) && c.pending == Count(orders, Unpaid)
  {
    PaymentCounts(Count(orders, IsCod), Count(orders, PaidCard), Count(orders, PaidUpi), Count(orders, Unpaid))
  }

  /**
   * The four figures overlap: an unpaid COD order is counted both as cod and as
   * pending, and every other order exactly once.
   */
  lemma {:induction false} PaymentCountsOverlap(orders: seq<Order>)
    ensures var c := OrderPaymentCounts(orders);
            c.cod + c.card + c.upi + c.pending == |orders| + Count(orders, UnpaidCod)
    decreases |orders|
  {
    if orders != [] {
      PaymentCountsOverlap(orders[1..]);
    }
  }

  /** A user as `/users` selects it. */
  datatype UserSummary = UserSummary(name: string, email: string, createdAt: int, orders: Option<int>)

  function Summary(u: User): UserSummary
  {
    UserSummary(u.name, u.email, u.createdAt, u.orders)
  }

  function JoinedAt(s: UserSummary): int { s.createdAt }

  function Summaries(users: seq<User>): (r: seq<UserSummary>)
    ensures |r| == |users| && forall i :: 0 <= i < |users| ==> r[i] == Summary(users[i])
  {
    seq(|users|, i requires 0 <= i < |users| => Summary(users[i]))
  }

  datatype UserListing = UserListing(totalUsers: nat, users: seq<UserSummary>)

  /** GET `/users`: every user, newest first, with `totalUsers` the length of that list. */
  function UsersListing(users: seq<User>): (r: UserListing)
    ensures r.totalUsers == |r.users| == |users|
    ensures NewestFirst(r.users, JoinedAt)
    ensures multiset(r.users) == multiset(Summaries(users))
  {
    var list := SortNewestFirst(Summaries(users), JoinedAt);
    UserListing(|list|, list)
  }
}
