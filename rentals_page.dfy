/** The rentals list page: the per-status counters, the amount paid and
    the balance of each rental, the status badge colours, and the status
    change it sends to `PUT /api/rentals/{id}`. It works on the rentals
    as `GET /api/rentals` returns them, each with its payments. */
module RentalsPage {

  import opened Optional
  import opened Seqs
  import opened Http
  import opened Entities
  import opened RentalsRoute
  import FinanceStats

  /** `getTotalPaid`: the sum of the amounts of all the rental's payments, whatever their status. */
  function TotalPaid(payments: seq<Payment>): (r: Money)
    ensures payments == [] ==> r == 0
  {
    SumAmounts(payments)
  }

  /** `rental.totalAmount - totalPaid`. */
  function Balance(view: RentalView): Money {
    view.rental.totalAmount - TotalPaid(view.payments)
  }

  /** The "paid" cell is shown in orange exactly when the balance is positive. */
  predicate IsOutstanding(view: RentalView) {
    Balance(view) > 0
  }

  /** Payments that are not `PAID` still count as paid on this page. */
  lemma TotalPaidIgnoresStatus(payments: seq<Payment>, p: Payment)
    ensures TotalPaid(payments + [p]) == TotalPaid(payments) + p.amount
  {
    SumAmountsAppend(payments, [p]);
    assert SumAmounts([p]) == p.amount + SumAmounts([]);
  }

  function BalanceSum(views: seq<RentalView>): Money {
    if views == [] then 0 else Balance(views[0]) + BalanceSum(views[1..])
  }

  /** The finance dashboard's `pendingAmount` is the sum of the balances
      this page shows for the `PENDING` and `ACTIVE` rentals. */
  lemma {:induction false} OpenBalanceIsBalanceSum(rentals: seq<Rental>, payments: seq<Payment>)
    ensures FinanceStats.OpenBalance(rentals, payments) == BalanceSum(Views(rentals, payments))
  {
    if rentals != [] {
      OpenBalanceIsBalanceSum(rentals[1..], payments);
      assert Views(rentals, payments)[1..] == Views(rentals[1..], payments);
    }
  }

  lemma PendingIsSumOfBalances(rentals: seq<Rental>, payments: seq<Payment>)
    ensures FinanceStats.PendingAmount(rentals, payments) == BalanceSum(Views(Filter(rentals, FinanceStats.IsOpen), payments))
  {
    OpenBalanceIsBalanceSum(Filter(rentals, FinanceStats.IsOpen), payments);
  }

  /** The sample rental of the seed data: 2 x 50.00 + 50 x 2.50 + 6 x 15.00
      = 315.00, paid in full by one payment, has nothing outstanding. */
  lemma SeedRentalSettled(rental: Rental, payment: Payment)
    requires rental.lines == [RentalLine("tent", 2, 5000, 10000), RentalLine("chairs", 50, 250, 12500), RentalLine("tables", 6, 1500, 9000)]
    requires rental.totalAmount == SubtotalSum(rental.lines)
    requires payment.amount == 31500 && payment.paymentStatus == PAID
    ensures rental.totalAmount == 31500
    ensures Balance(RentalView(rental, [payment])) == 0 && !IsOutstanding(RentalView(rental, [payment]))
  {
    var lines := rental.lines;
    assert SubtotalSum(lines[2..]) == 9000 by { assert lines[2..][1..] == []; }
    assert SubtotalSum(lines[1..]) == 12500 + SubtotalSum(lines[2..]) by { assert lines[1..][1..] == lines[2..]; }
    assert SumAmounts([payment]) == 31500 + SumAmounts([]);
  }

  const PENDING_COLOR := "bg-yellow-100 text-yellow-800"

  /** The `colors` record of `getStatusColor`. */
  const STATUS_COLORS: map<string, string> := map[
    PENDING := PENDING_COLOR,
    ACTIVE := "bg-blue-100 text-blue-800",
    COMPLETED := "bg-green-100 text-green-800",
    CANCELLED := "bg-red-100 text-red-800"]

  /** `colors[status] || colors.PENDING`. */
  function StatusColor(status: string): (c: string)
    ensures status in STATUS_COLORS ==> c == STATUS_COLORS[status]
    ensures status !in STATUS_COLORS ==> c == PENDING_COLOR
  {
    if status in STATUS_COLORS && STATUS_COLORS[status] != "" then STATUS_COLORS[status] else STATUS_COLORS[PENDING]
  }

  /** An unknown status is shown like a `PENDING` one, and the four known
      statuses have four different colours. */
  lemma StatusColors(status: string, other: string)
    ensures status !in {PENDING, ACTIVE, COMPLETED, CANCELLED} ==> StatusColor(status) == StatusColor(PENDING)
    ensures status in {PENDING, ACTIVE, COMPLETED, CANCELLED} && other in {PENDING, ACTIVE, COMPLETED, CANCELLED} && status != other
      ==> StatusColor(status) != StatusColor(other)
  {
  }

  function HasStatus(status: string): RentalView -> bool {
    (v: RentalView) => v.rental.status == status
  }

  /** `rentals.filter(r => r.status === status).length`. */
  function StatusCount(views: seq<RentalView>, status: string): (n: nat)
    ensures n <= |views|
  {
    Count(views, HasStatus(status))
  }

  predicate Unshown(v: RentalView) {
    v.rental.status !in {ACTIVE, PENDING, COMPLETED}
  }

  /** The three counters together with the rentals of other statuses
      (`CANCELLED` or anything else) make up "Total Rentals"; so the three
      never add up to more than the total. */
  lemma {:induction false} CountsPartitionTotal(views: seq<RentalView>)
    ensures StatusCount(views, ACTIVE) + StatusCount(views, PENDING) + StatusCount(views, COMPLETED) + Count(views, Unshown) == |views|
    ensures StatusCount(views, ACTIVE) + StatusCount(views, PENDING) + StatusCount(views, COMPLETED) <= |views|
  {
    if views != [] {
      CountsPartitionTotal(views[1..]);
    }
  }

  /** The body of the status change. */
  datatype StatusUpdate = StatusUpdate(status: string, returnDate: Option<string>, returnItems: bool)

  /** The edit dialog's state. */
  datatype EditDialog = EditDialog(editingRental: Option<Rental>, editStatus: string, isOpen: bool)

  /** `openEditDialog`: the dialog opens on the rental with its current status selected. */
  function OpenEditDialog(rental: Rental): (d: EditDialog)
    ensures d.editingRental == Some(rental) && d.editStatus == rental.status && d.isOpen
  {
    EditDialog(Some(rental), rental.status, true)
  }

  /** `handleUpdateStatus`: nothing without a rental being edited;
      otherwise `PUT /api/rentals/{id}` with the selected status, and a
      return date (the clock reading `nowIso`) and `returnItems` exactly
      when that status is `COMPLETED`. */
  function UpdateStatusRequest(dialog: EditDialog, nowIso: string): (r: Option<Request<StatusUpdate>>)
    ensures r.None? <==> dialog.editingRental.None?
    ensures r.Some? ==>
      && r.value.verb == "PUT"
      && r.value.url == "/api/rentals/" + dialog.editingRental.value.id
      && r.value.body.status == dialog.editStatus
      && (r.value.body.returnItems <==> dialog.editStatus == COMPLETED)
      && (r.value.body.returnDate.Some? <==> dialog.editStatus == COMPLETED)
      && (r.value.body.returnDate.Some? ==> r.value.body.returnDate.value == nowIso)
  {
    match dialog.editingRental
    case None => None
    case Some(rental) =>
      var completed := dialog.editStatus == COMPLETED;
      Some(Request("PUT", "/api/rentals/" + rental.id,
        StatusUpdate(dialog.editStatus, if completed then Some(nowIso) else None, completed)))
  }

  /** Saving the dialog unchanged resends the rental's own status, and asks
      for the items back only when the rental is already `COMPLETED`. */
  lemma UnchangedDialogResendsStatus(rental: Rental, nowIso: string)
    ensures var r := UpdateStatusRequest(OpenEditDialog(rental), nowIso);
      r.Some? && r.value.body.status == rental.status && (r.value.body.returnItems <==> rental.status == COMPLETED)
  {
  }
}
