/** `GET /api/finance/stats`: the four dashboard figures, for
    administrators only, recomputed from the payment and rental tables on
    every request. */
module FinanceStats {

  import opened Seqs
  import opened Calendar
  import opened Http
  import opened Entities
  import opened Store

  datatype Stats = Stats(totalRevenue: Money, pendingAmount: Money, activeRentalsCount: nat, monthlyRevenue: Money)

  /** `status: { in: ['PENDING', 'ACTIVE'] }`. */
  predicate IsOpen(r: Rental) {
    r.status == PENDING || r.status == ACTIVE
  }

  predicate IsActive(r: Rental) {
    r.status == ACTIVE
  }

  /** The sum of the `PAID` payments. */
  function TotalRevenue(payments: seq<Payment>): Money {
    SumAmounts(Filter(payments, IsPaid))
  }

  /** The sum over `rentals` of `totalAmount` minus all of that rental's payments. */
  function OpenBalance(rentals: seq<Rental>, payments: seq<Payment>): Money {
    if rentals == [] then 0
    else (rentals[0].totalAmount - SumAmounts(PaymentsOf(payments, rentals[0].id))) + OpenBalance(rentals[1..], payments)
  }

  /** The outstanding balance of the `PENDING` and `ACTIVE` rentals; a
      payment of any status counts as paid, and nothing is clamped. */
  function PendingAmount(rentals: seq<Rental>, payments: seq<Payment>): Money {
    OpenBalance(Filter(rentals, IsOpen), payments)
  }

  function ActiveRentalsCount(rentals: seq<Rental>): nat {
    Count(rentals, IsActive)
  }

  /** `PAID` and `createdAt >= ` 00:00 on day 1 of month `now`. */
  predicate PaidSince(now: YearMonth, p: Payment) {
    IsPaid(p) && AtOrAfter(p.createdAt, StartOf(now))
  }

  function MonthlyRevenue(payments: seq<Payment>, now: YearMonth): Money {
    SumAmounts(Filter(payments, p => PaidSince(now, p)))
  }

  /** The handler: 401 unless the caller is an administrator. */
  function Get(session: Session, payments: seq<Payment>, rentals: seq<Rental>, now: YearMonth): (r: Response<Stats>)
    ensures r.Unauthorized? <==> !IsAdmin(session)
    ensures r.StatusCode() == (if IsAdmin(session) then 200 else 401)
    ensures !r.ServerError?
    ensures r.Ok? ==> r.body.activeRentalsCount <= |rentals|
  {
    if !IsAdmin(session) then Unauthorized
    else Ok(Stats(
      totalRevenue := TotalRevenue(payments),
      pendingAmount := PendingAmount(rentals, payments),
      activeRentalsCount := ActiveRentalsCount(rentals),
      monthlyRevenue := MonthlyRevenue(payments, now)))
  }

  /** Paid and unpaid payments together make up the whole ledger. */
  lemma RevenuePartition(payments: seq<Payment>)
    ensures TotalRevenue(payments) + SumAmounts(Filter(payments, p => !IsPaid(p))) == SumAmounts(payments)
  {
    SumFilterDisjoint(payments, p => true, IsPaid, p => !IsPaid(p));
    FilterAll(payments, p => true);
  }

  /** The month's payments are among all paid ones, so with non-negative
      amounts the monthly figure never exceeds the total. */
  lemma MonthlyAtMostTotal(payments: seq<Payment>, now: YearMonth)
    requires forall p :: p in payments && IsPaid(p) ==> p.amount >= 0
    ensures MonthlyRevenue(payments, now) <= TotalRevenue(payments)
  {
    SumFilterMonotone(payments, IsPaid, p => PaidSince(now, p));
  }

  /** A payment whose status is not `PAID` leaves the revenue unchanged. */
  lemma UnpaidPaymentKeepsRevenue(payments: seq<Payment>, p: Payment)
    requires !IsPaid(p)
    ensures TotalRevenue(payments + [p]) == TotalRevenue(payments)
  {
    FilterAppend(payments, [p], IsPaid);
    assert [p][1..] == [];
    assert Filter([p], IsPaid) == Filter([p][1..], IsPaid) == [];
    assert Filter(payments, IsPaid) + [] == Filter(payments, IsPaid);
  }

  /** An `ACTIVE` rental adds one to the count; any other status adds nothing. */
  lemma ActiveCountAfterAppend(rentals: seq<Rental>, r: Rental)
    ensures ActiveRentalsCount(rentals + [r]) == ActiveRentalsCount(rentals) + (if r.status == ACTIVE then 1 else 0)
  {
    FilterAppend(rentals, [r], IsActive);
  }

  function OpenTotal(rentals: seq<Rental>): Money {
    if rentals == [] then 0 else rentals[0].totalAmount + OpenTotal(rentals[1..])
  }

  function PaidAgainst(rentals: seq<Rental>, payments: seq<Payment>): Money {
    if rentals == [] then 0 else SumAmounts(PaymentsOf(payments, rentals[0].id)) + PaidAgainst(rentals[1..], payments)
  }

  lemma {:induction false} OpenBalanceSplit(rentals: seq<Rental>, payments: seq<Payment>)
    ensures OpenBalance(rentals, payments) == OpenTotal(rentals) - PaidAgainst(rentals, payments)
  {
    if rentals != [] {
      OpenBalanceSplit(rentals[1..], payments);
    }
  }

  /** The payments recorded against a rental of the list. */
  predicate AgainstOneOf(rentals: seq<Rental>, p: Payment) {
    p.rentalId in Ids(rentals, RentalId)
  }

  lemma {:induction false} PaidAgainstDistinct(rentals: seq<Rental>, payments: seq<Payment>)
    requires UniqueIds(rentals, RentalId)
    ensures PaidAgainst(rentals, payments) == SumAmounts(Filter(payments, p => AgainstOneOf(rentals, p)))
  {
    if rentals == [] {
      assert Ids(rentals, RentalId) == {};
      FilterNone(payments, p => AgainstOneOf(rentals, p));
    } else {
      var rest := rentals[1..];
      PaidAgainstDistinct(rest, payments);
      assert Ids(rentals, RentalId) == {rentals[0].id} + Ids(rest, RentalId) by {
        forall x | x in Ids(rentals, RentalId) ensures x in {rentals[0].id} + Ids(rest, RentalId) {
          var i :| 0 <= i < |rentals| && rentals[i].id == x;
          if i > 0 { assert rest[i - 1] == rentals[i]; }
        }
        forall x | x in Ids(rest, RentalId) ensures x in Ids(rentals, RentalId) {
          var i :| 0 <= i < |rest| && rest[i].id == x;
          assert rentals[i + 1] == rest[i];
        }
      }
      forall i | 0 <= i < |rest| ensures rest[i].id != rentals[0].id {
        assert rentals[i + 1] == rest[i];
      }
      SumFilterDisjoint(payments, p => AgainstOneOf(rentals, p),
        (p: Payment) => p.rentalId == rentals[0].id, p => AgainstOneOf(rest, p));
    }
  }

  lemma {:induction false} FilterNone(payments: seq<Payment>, keep: Payment -> bool)
    requires forall p :: !keep(p)
    ensures Filter(payments, keep) == []
  {
    if payments != [] {
      FilterNone(payments[1..], keep);
    }
  }

  lemma {:induction false} FilterKeepsUniqueIds(rentals: seq<Rental>, keep: Rental -> bool)
    requires UniqueIds(rentals, RentalId)
    ensures UniqueIds(Filter(rentals, keep), RentalId)
  {
    if rentals != [] {
      FilterKeepsUniqueIds(rentals[1..], keep);
      var rest := Filter(rentals[1..], keep);
      forall r | r in rest ensures r.id != rentals[0].id {
        var i :| 0 <= i < |rentals[1..]| && rentals[1..][i] == r;
        assert rentals[i + 1] == r;
      }
    }
  }

  /** With unique rental ids, the pending amount is what the open rentals
      cost in total minus every payment, of any status, recorded against
      one of them. */
  lemma PendingAmountFormula(rentals: seq<Rental>, payments: seq<Payment>)
    requires UniqueIds(rentals, RentalId)
    ensures var open := Filter(rentals, IsOpen);
      PendingAmount(rentals, payments) == OpenTotal(open) - SumAmounts(Filter(payments, p => AgainstOneOf(open, p)))
  {
    var open := Filter(rentals, IsOpen);
    FilterKeepsUniqueIds(rentals, IsOpen);
    OpenBalanceSplit(open, payments);
    PaidAgainstDistinct(open, payments);
  }

  /** Recording a payment, whatever its status, lowers the pending amount
      by its amount when its rental is `PENDING` or `ACTIVE`, and leaves it
      unchanged otherwise. */
  lemma PendingAfterPayment(rentals: seq<Rental>, payments: seq<Payment>, p: Payment)
    requires UniqueIds(rentals, RentalId)
    ensures PendingAmount(rentals, payments + [p]) ==
      PendingAmount(rentals, payments) - (if AgainstOneOf(Filter(rentals, IsOpen), p) then p.amount else 0)
  {
    var open := Filter(rentals, IsOpen);
    PendingAmountFormula(rentals, payments);
    PendingAmountFormula(rentals, payments + [p]);
    FilterAppend(payments, [p], q => AgainstOneOf(open, q));
    SumAmountsAppend(Filter(payments, q => AgainstOneOf(open, q)), Filter([p], q => AgainstOneOf(open, q)));
  }

  /** The pending amount is not clamped at zero: an overpaid pending rental
      contributes a negative term. */
  lemma PendingNotClamped(rental: Rental, payment: Payment)
    requires rental.status == PENDING && rental.totalAmount == 100
    requires payment.rentalId == rental.id && payment.amount == 150
    ensures PendingAmount([rental], [payment]) == -50
  {
    assert [rental][1..] == [] && [payment][1..] == [];
    assert Filter([rental], IsOpen) == [rental] + Filter([rental][1..], IsOpen) == [rental];
    assert PaymentsOf([payment], rental.id) == [payment];
    assert SumAmounts([payment]) == 150 + SumAmounts([payment][1..]) == 150;
    assert OpenBalance([rental], [payment]) == (100 - 150) + OpenBalance([rental][1..], [payment]);
  }
}
