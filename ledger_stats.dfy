/**
 * The admin payment summary (Backend/routes/adminPaymentRoutes.js): one pass over the
 * Payment ledger incrementing counters of a mutable stats record.
 */
module LedgerStats {
  import opened Listing
  import opened OrderSchema

  datatype Stats = Stats(card: int, upi: int, cod: int, pending: int, totalAmount: int)

  /** All counters start at 0. */
  const Zero: Stats := Stats(0, 0, 0, 0, 0)

  /**
   * One payment's contribution: the amount always counts; a Pending record counts as
   * pending only, any other record under its method, and a settled record whose
   * method is still "Pending" under no counter.
   */
  function Step(s: Stats, p: Payment): Stats
  {
    var s := s.(totalAmount := s.totalAmount + p.amount);
    if p.status == Pending then s.(pending := s.pending + 1)
    else if p.payMethod == Card then s.(card := s.card + 1)
    else if p.payMethod == Upi then s.(upi := s.upi + 1)
    else if p.payMethod == Cod then s.(cod := s.cod + 1)
    else s
  }

  /** The stats after visiting `ps` in order. */
  function Tally(ps: seq<Payment>): Stats
  {
    if ps == [] then Zero else Step(Tally(ps[..|ps| - 1]), ps[|ps| - 1])
  }

  /** GET `/admin/payments`: the `forEach` over the ledger. */
  method PaymentStats(ps: seq<Payment>) returns (s: Stats)
    ensures s == Tally(ps)
  {
    s := Zero;
    var i := 0;
    while i < |ps|
      invariant 0 <= i <= |ps|
      invariant s == Tally(ps[..i])
    {
      assert ps[..i + 1][..i] == ps[..i];
      s := Step(s, ps[i]);
      i := i + 1;
    }
    assert ps[..|ps|] == ps;
  }

  predicate IsPending(p: Payment) { p.status == Pending }

  predicate SettledWith(m: LedgerMethod, p: Payment) { p.status == Paid && p.payMethod == m }

  function Amount(p: Payment): int { p.amount }

  function SumAmounts(ps: seq<Payment>): int
  {
    if ps == [] then 0 else SumAmounts(ps[..|ps| - 1]) + ps[|ps| - 1].amount
  }

  /**
   * Each counter counts exactly its payments: pending the Pending records whatever
   * their method, card/upi/cod the settled records with that method; the total sums
   * every amount whatever the status.
   */
  lemma {:induction false} TallyCounts(ps: seq<Payment>)
    ensures Tally(ps).pending == Count(ps, IsPending)
    ensures Tally(ps).card == Count(ps, p => SettledWith(Card, p))
    ensures Tally(ps).upi == Count(ps, p => SettledWith(Upi, p))
    ensures Tally(ps).cod == Count(ps, p => SettledWith(Cod, p))
    ensures Tally(ps).totalAmount == SumAmounts(ps)
    decreases |ps|
  {
    if ps != [] {
      var init := ps[..|ps| - 1];
      var last := ps[|ps| - 1];
      TallyCounts(init);
      assert ps == init + [last];
      CountAppend(init, [last], IsPending);
      CountAppend(init, [last], p => SettledWith(Card, p));
      CountAppend(init, [last], p => SettledWith(Upi, p));
      CountAppend(init, [last], p => SettledWith(Cod, p));
    }
  }

  /** Each payment increments at most one counter, so the counters never exceed the number of payments. */
  lemma {:induction false} TallyBound(ps: seq<Payment>)
    ensures Tally(ps).card + Tally(ps).upi + Tally(ps).cod + Tally(ps).pending <= |ps|
    ensures Tally(ps).card >= 0 && Tally(ps).upi >= 0 && Tally(ps).cod >= 0 && Tally(ps).pending >= 0
    decreases |ps|
  {
    if ps != [] {
      TallyBound(ps[..|ps| - 1]);
    }
  }

  /** The bound is reached exactly when no settled record still has method "Pending". */
  lemma {:induction false} TallyExact(ps: seq<Payment>)
    ensures Tally(ps).card + Tally(ps).upi + Tally(ps).cod + Tally(ps).pending
            == |ps| - Count(ps, p => SettledWith(MethodPending, p))
    decreases |ps|
  {
    if ps != [] {
      var init := ps[..|ps| - 1];
      var last := ps[|ps| - 1];
      TallyExact(init);
      assert ps == init + [last];
      CountAppend(init, [last], p => SettledWith(MethodPending, p));
    }
  }

  /** The "Transactions" figure of the admin payment page: card + upi + cod, leaving pending out. */
  function Transactions(s: Stats): (n: int)
    ensures n == s.card + s.upi + s.cod
  {
    s.card + s.upi + s.cod
  }

  /** Transactions are the settled records with a real method. */
  lemma TransactionsAreSettled(ps: seq<Payment>)
    ensures Transactions(Tally(ps)) == |ps| - Count(ps, IsPending) - Count(ps, p => SettledWith(MethodPending, p))
  {
    TallyExact(ps);
    TallyCounts(ps);
  }
}
