/**
 * The admin payments page (Admin/src/pages/Payment.jsx): the ledger rows as the
 * admin route returns them, the method, status and search filters, and pagination
 * five rows at a time.
 */
module PaymentsPage {
  import opened Wrappers
  import opened Text
  import opened Listing
  import opened Accounts
  import opened OrderSchema

  /** A row's `order`: the ledger route does not populate it, so it arrives as a bare id. */
  datatype OrderField = RawId(id: string) | PopulatedOrder(id: string)

  datatype UserInfo = UserInfo(name: Option<string>, email: Option<string>)

  /** A payment as the page receives it, with its method and status as their stored names. */
  datatype Row = Row(order: OrderField, user: Option<UserInfo>, payMethod: string, status: string)

  function MethodText(m: LedgerMethod): string
  {
    match m
    case Card => "CARD"
    case Upi => "UPI"
    case Cod => "COD"
    case MethodPending => "Pending"
  }

  function StatusText(s: LedgerStatus): (t: string)
    ensures t == "Paid" || t == "Pending"
  {
    match s
    case Paid => "Paid"
    case Pending => "Pending"
  }

  /** A ledger record as `GET /admin/payments` serialises it: the user populated with name and email, the order left as its id. */
  function RowOf(p: Payment, users: map<string, User>): (r: Row)
    ensures r.order == RawId(p.order) && r.payMethod == MethodText(p.payMethod) && r.status == StatusText(p.status)
    ensures r.user.Some? <==> p.user in users
  {
    Row(RawId(p.order), if p.user in users then Some(UserInfo(Some(users[p.user].name), Some(users[p.user].email))) else None,
        MethodText(p.payMethod), StatusText(p.status))
  }

  function Rows(ps: seq<Payment>, users: map<string, User>): (r: seq<Row>)
    ensures |r| == |ps| && forall i :: 0 <= i < |ps| ==> r[i] == RowOf(ps[i], users)
  {
    seq(|ps|, i requires 0 <= i < |ps| => RowOf(ps[i], users))
  }

  /** The method filter: "All", or equality ignoring letter case, so the option "Card" selects "CARD". */
  function MethodIs(choice: string): Row -> bool
  {
    (r: Row) => EqualsIgnoreCase(r.payMethod, choice)
  }

  /** The status filter as written: equality ignoring letter case against the option's text. */
  function StatusIs(choice: string): Row -> bool
  {
    (r: Row) => EqualsIgnoreCase(r.status, choice)
  }

  /** `s?.toLowerCase().includes(term.toLowerCase())` for an optional field. */
  predicate FieldContains(s: Option<string>, term: string)
  {
    s.Some? && Contains(Lower(s.value), Lower(term))
  }

  /** The search: the order's `_id` (only present on a populated order), the user's name or the user's email contains the untrimmed term. */
  function SearchHit(term: string): Row -> bool
  {
    (r: Row) =>
      (r.order.PopulatedOrder? && Contains(Lower(r.order.id), Lower(term)))
      || (r.user.Some? && (FieldContains(r.user.value.name, term) || FieldContains(r.user.value.email, term)))
  }

  /** The three filters, each applied only when set, in the effect's order. */
  function Filtered(rows: seq<Row>, methodFilter: string, statusFilter: string, term: string): (r: seq<Row>)
    ensures IsSubsequence(r, rows)
    ensures forall x :: x in r <==>
              x in rows
              && (methodFilter == "All" || MethodIs(methodFilter)(x))
              && (statusFilter == "All" || StatusIs(statusFilter)(x))
              && (IsBlank(term) || SearchHit(term)(x))
    ensures forall x :: multiset(r)[x] ==
              if (methodFilter == "All" || MethodIs(methodFilter)(x))
                 && (statusFilter == "All" || StatusIs(statusFilter)(x))
                 && (IsBlank(term) || SearchHit(term)(x))
              then multiset(rows)[x] else 0
  {
    var byMethod := if methodFilter != "All" then Filter(rows, MethodIs(methodFilter)) else rows;
    var byStatus := if statusFilter != "All" then Filter(byMethod, StatusIs(statusFilter)) else byMethod;
    var searched := if Trim(term) != "" then Filter(byStatus, SearchHit(term)) else byStatus;
    FilterMultiplicity(rows, MethodIs(methodFilter));
    FilterMultiplicity(byMethod, StatusIs(statusFilter));
    FilterMultiplicity(byStatus, SearchHit(term));
    IsSubsequenceRefl(rows);
    IsSubsequenceRefl(byMethod);
    IsSubsequenceRefl(byStatus);
    IsSubsequenceTrans(searched, byStatus, byMethod);
    IsSubsequenceTrans(searched, byMethod, rows);
    searched
  }

  /** A ledger row never matches a search on its order id: the order is not populated. */
  lemma OrderIdNeverSearched(p: Payment, term: string)
    ensures SearchHit(term)(RowOf(p, map[])) == false
  {
  }

  /** As written, the "Success" status option shows no ledger record at all: stored statuses are "Paid" and "Pending". */
  lemma SuccessShowsNothing(ps: seq<Payment>, users: map<string, User>, methodFilter: string, term: string)
    ensures Filtered(Rows(ps, users), methodFilter, "Success", term) == []
  {
    var rows := Rows(ps, users);
    var byMethod := if methodFilter != "All" then Filter(rows, MethodIs(methodFilter)) else rows;
    forall x | x in byMethod ensures !StatusIs("Success")(x) {
      assert x in rows;
      StoredStatusNotSuccess(x.status);
    }
    FilterNone(byMethod, StatusIs("Success"));
  }

  lemma StoredStatusNotSuccess(t: string)
    requires t == "Paid" || t == "Pending"
    ensures !EqualsIgnoreCase(t, "Success")
  {
    assert Lower("Success")[0] == 's';
    if t == "Paid" {
      assert |Lower(t)| == 4;
    } else {
      assert Lower(t)[0] == 'p';
    }
  }

  /** The status filter meant: "Success" selects the paid records, any other option compares as before. */
  function IntendedStatusIs(choice: string): Row -> bool
  {
    (r: Row) => if choice == "Success" then r.status == "Paid" else EqualsIgnoreCase(r.status, choice)
  }

  /** With the intended filter, "Success" shows exactly the paid ledger records. */
  lemma IntendedSuccessShowsPaid(ps: seq<Payment>, users: map<string, User>)
    ensures forall x :: x in Filter(Rows(ps, users), IntendedStatusIs("Success")) <==> x in Rows(ps, users) && x.status == "Paid"
  {
  }

  const PerPage: int := 5

  /** `Math.ceil(n / 5)`. */
  function TotalPages(n: nat): (t: nat)
    ensures 5 * t >= n && 5 * (t - 1) < n + (if n == 0 then 5 else 0)
  {
    (n + PerPage - 1) / PerPage
  }

  function Min(a: int, b: int): int { if a <= b then a else b }

  /** `slice((p - 1) * 5, p * 5)` for a page number of at least 1, cut at the end of the list. */
  function PageRows(rows: seq<Row>, page: int): (r: seq<Row>)
    requires page >= 1
    ensures |r| <= PerPage
    ensures forall k :: 0 <= k < |r| ==> (page - 1) * PerPage + k < |rows| && r[k] == rows[(page - 1) * PerPage + k]
  {
    var lo := Min((page - 1) * PerPage, |rows|);
    var hi := Min(page * PerPage, |rows|);
    rows[lo..hi]
  }

  /** Every row lies on exactly one of the pages 1..totalPages, at its place on that page. */
  lemma PagesPartition(rows: seq<Row>, i: int)
    requires 0 <= i < |rows|
    ensures 1 <= i / PerPage + 1 <= TotalPages(|rows|)
    ensures i % PerPage < |PageRows(rows, i / PerPage + 1)|
    ensures PageRows(rows, i / PerPage + 1)[i % PerPage] == rows[i]
  {
  }

  /** The page's state: the fetched rows (none before the fetch), the filters and the current page. */
  class Page {
    var rows: Option<seq<Row>>
    var filtered: seq<Row>
    var methodFilter: string
    var statusFilter: string
    var searchTerm: string
    var currentPage: int

    ghost predicate Valid()
      reads this
    {
      currentPage >= 1
    }

    constructor()
      ensures Valid() && rows.None? && filtered == [] && methodFilter == "All" && statusFilter == "All"
      ensures searchTerm == "" && currentPage == 1
    {
      rows := None;
      filtered := [];
      methodFilter := "All";
      statusFilter := "All";
      searchTerm := "";
      currentPage := 1;
    }

    /** The filter effect: before the fetch it does nothing; after, it narrows the rows (see `Filtered`) and returns to page 1. */
    method ApplyFilters()
      requires Valid()
      modifies this
      ensures Valid()
      ensures rows == old(rows) && methodFilter == old(methodFilter) && statusFilter == old(statusFilter)
      ensures searchTerm == old(searchTerm)
      ensures old(rows).None? ==> filtered == old(filtered) && currentPage == old(currentPage)
      ensures old(rows).Some? ==> filtered == Filtered(rows.value, methodFilter, statusFilter, searchTerm) && currentPage == 1
    {
      if rows.None? {
        return;
      }
      filtered := Filtered(rows.value, methodFilter, statusFilter, searchTerm);
      currentPage := 1;
    }

    /** The fetch: the rows arrive and the effect runs on them. */
    method Load(data: seq<Row>)
      requires Valid()
      modifies this
      ensures Valid() && rows == Some(data) && currentPage == 1
      ensures filtered == Filtered(data, methodFilter, statusFilter, searchTerm)
      ensures methodFilter == old(methodFilter) && statusFilter == old(statusFilter) && searchTerm == old(searchTerm)
    {
      rows := Some(data);
      filtered := data;
      ApplyFilters();
    }

    /** Choosing a method, a status or a search term re-runs the effect. */
    method SetFilters(m: string, s: string, term: string)
      requires Valid()
      modifies this
      ensures Valid() && methodFilter == m && statusFilter == s && searchTerm == term && rows == old(rows)
      ensures rows.Some? ==> filtered == Filtered(rows.value, m, s, term) && currentPage == 1
      ensures rows.None? ==> filtered == old(filtered) && currentPage == old(currentPage)
    {
      methodFilter, statusFilter, searchTerm := m, s, term;
      ApplyFilters();
    }

    /** A page button: pages are numbered from 1. */
    method GoToPage(i: int)
      requires Valid() && 0 <= i
      modifies this
      ensures Valid() && currentPage == i + 1
      ensures rows == old(rows) && filtered == old(filtered)
    {
      currentPage := i + 1;
    }

    /** The rows the table shows. */
    function Shown(): (r: seq<Row>)
      requires Valid()
      reads this
      ensures |r| <= PerPage && forall x :: x in r ==> x in filtered
    {
      PageRows(filtered, currentPage)
    }
  }
}
