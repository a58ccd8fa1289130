/** The finance dashboard page: the six-month revenue chart, the
    revenue-by-payment-method chart, the average transaction and the
    recent-payments table, computed on the client from the lists that
    `GET /api/payments` and `GET /api/rentals` return. */
module FinancePage {

  import opened Seqs
  import opened Calendar
  import opened Entities
  import opened RentalsRoute
  import FinanceStats

  /** An entry of `last6Months`. */
  datatype MonthSummary = MonthSummary(month: string, revenue: Money, rentals: nat)

  /** `PAID`, and created in month `ym` of its year. */
  function PaidIn(ym: YearMonth): Payment -> bool {
    (p: Payment) => MonthOf(p.createdAt) == ym && p.paymentStatus == PAID
  }

  function CreatedIn(ym: YearMonth): RentalView -> bool {
    (v: RentalView) => MonthOf(v.rental.createdAt) == ym
  }

  /** The revenue bar of month `ym`. */
  function MonthRevenue(payments: seq<Payment>, ym: YearMonth): Money {
    SumAmounts(Filter(payments, PaidIn(ym)))
  }

  /** The rentals bar of month `ym`: rentals of any status. */
  function MonthRentals(rentals: seq<RentalView>, ym: YearMonth): nat {
    Count(rentals, CreatedIn(ym))
  }

  function Summary(payments: seq<Payment>, rentals: seq<RentalView>, ym: YearMonth): MonthSummary {
    MonthSummary(MonthName(ym.month), MonthRevenue(payments, ym), MonthRentals(rentals, ym))
  }

  /** `processMonthlyData`: for `i` from 5 down to 0, the summary of the
      month `i` months before the current month `now`. The month is the
      intended one; `Calendar.MonthsBeforeAsWritten` is what `setMonth`
      gives after the 28th. */
  method ProcessMonthlyData(payments: seq<Payment>, rentals: seq<RentalView>, now: YearMonth)
    returns (last6Months: seq<MonthSummary>)
    ensures |last6Months| == 6
    ensures forall k :: 0 <= k < 6 ==> last6Months[k] == Summary(payments, rentals, MonthsBefore(now, 5 - k))
  {
    last6Months := [];
    var i := 5;
    while i >= 0
      invariant -1 <= i <= 5
      invariant |last6Months| == 5 - i
      invariant forall k :: 0 <= k < |last6Months| ==> last6Months[k] == Summary(payments, rentals, MonthsBefore(now, 5 - k))
    {
      var date := MonthsBefore(now, i);
      var monthIndex := date.month;
      var year := date.year;
      var monthRevenue := SumAmounts(Filter(payments, PaidIn(YearMonth(year, monthIndex))));
      var monthRentals := |Filter(rentals, CreatedIn(YearMonth(year, monthIndex)))|;
      last6Months := last6Months + [MonthSummary(MonthName(monthIndex), monthRevenue, monthRentals)];
      i := i - 1;
    }
  }

  /** The last of the six months (`i = 0`) is the current month. */
  lemma LastIsCurrentMonth(now: YearMonth)
    ensures MonthsBefore(now, 0) == now
  {
    OrdinalInjective(MonthsBefore(now, 0), now);
  }

  /** A month's revenue is its share of the total revenue: it never exceeds
      it when the paid amounts are non-negative. */
  lemma MonthAtMostTotal(payments: seq<Payment>, ym: YearMonth)
    requires forall p :: p in payments && IsPaid(p) ==> p.amount >= 0
    ensures MonthRevenue(payments, ym) <= FinanceStats.TotalRevenue(payments)
  {
    SumFilterMonotone(payments, IsPaid, PaidIn(ym));
  }

  /** When no payment is dated after the current month, the chart's
      current-month bar is the dashboard's "Current Month Revenue". */
  lemma CurrentMonthMatchesStats(payments: seq<Payment>, now: YearMonth)
    requires forall p :: p in payments ==> Ordinal(MonthOf(p.createdAt)) <= Ordinal(now)
    ensures MonthRevenue(payments, now) == FinanceStats.MonthlyRevenue(payments, now)
  {
    forall p | p in payments ensures PaidIn(now)(p) == FinanceStats.PaidSince(now, p) {
      AtOrAfterStartOf(p.createdAt, now);
      if Ordinal(MonthOf(p.createdAt)) == Ordinal(now) {
        OrdinalInjective(MonthOf(p.createdAt), now);
      }
    }
    FilterCongruent(payments, PaidIn(now), p => FinanceStats.PaidSince(now, p));
  }

  /** A new rental counts in the bar of the month it was created in, whatever its status. */
  lemma MonthRentalsAfterAppend(rentals: seq<RentalView>, v: RentalView, ym: YearMonth)
    ensures MonthRentals(rentals + [v], ym) == MonthRentals(rentals, ym) + (if MonthOf(v.rental.createdAt) == ym then 1 else 0)
  {
    FilterAppend(rentals, [v], CreatedIn(ym));
  }

  /** A segment of the payment-method chart. */
  datatype MethodShare = MethodShare(name: string, value: Money)

  function WithMethod(m: string): Payment -> bool {
    (p: Payment) => p.paymentMethod == m
  }

  /** Some `PAID` payment was made with method `m`. */
  ghost predicate HasPaidPayment(payments: seq<Payment>, m: string) {
    exists p :: p in payments && IsPaid(p) && p.paymentMethod == m
  }

  /** The methods named by the chart's segments. */
  function Names(shares: seq<MethodShare>): set<string> {
    set k | 0 <= k < |shares| :: shares[k].name
  }

  /** The sum of the `PAID` payments made with method `m`. */
  function MethodTotal(payments: seq<Payment>, m: string): Money {
    SumAmounts(Filter(Filter(payments, IsPaid), WithMethod(m)))
  }

  function ShareSum(shares: seq<MethodShare>): Money {
    if shares == [] then 0 else ShareSum(shares[..|shares| - 1]) + shares[|shares| - 1].value
  }

  /** The sum of `counts` over `keys`. */
  function KeySum(keys: seq<string>, counts: map<string, Money>): Money
    requires forall k :: k in keys ==> k in counts
  {
    if keys == [] then 0 else KeySum(keys[..|keys| - 1], counts) + counts[keys[|keys| - 1]]
  }

  lemma {:induction false} KeySumOther(keys: seq<string>, counts: map<string, Money>, m: string, v: Money)
    requires forall k :: k in keys ==> k in counts
    requires m !in keys
    ensures KeySum(keys, counts[m := v]) == KeySum(keys, counts)
  {
    if keys != [] {
      assert forall k :: k in keys[..|keys| - 1] ==> k in keys;
      KeySumOther(keys[..|keys| - 1], counts, m, v);
    }
  }

  lemma {:induction false} KeySumAdd(keys: seq<string>, counts: map<string, Money>, m: string, delta: Money)
    requires forall k :: k in keys ==> k in counts
    requires forall i, j :: 0 <= i < j < |keys| ==> keys[i] != keys[j]
    requires m in keys
    ensures KeySum(keys, counts[m := counts[m] + delta]) == KeySum(keys, counts) + delta
  {
    var init := keys[..|keys| - 1];
    assert forall k :: k in init ==> k in keys;
    if keys[|keys| - 1] == m {
      assert m !in init;
      KeySumOther(init, counts, m, counts[m] + delta);
    } else {
      assert m in init;
      KeySumAdd(init, counts, m, delta);
    }
  }

  function Shares(keys: seq<string>, counts: map<string, Money>): (r: seq<MethodShare>)
    requires forall k :: k in keys ==> k in counts
    ensures |r| == |keys|
    ensures forall k :: 0 <= k < |r| ==> r[k] == MethodShare(keys[k], counts[keys[k]])
  {
    seq(|keys|, k requires 0 <= k < |keys| => MethodShare(keys[k], counts[keys[k]]))
  }

  lemma {:induction false} ShareSumIsKeySum(keys: seq<string>, counts: map<string, Money>)
    requires forall k :: k in keys ==> k in counts
    ensures ShareSum(Shares(keys, counts)) == KeySum(keys, counts)
  {
    if keys != [] {
      var init := keys[..|keys| - 1];
      assert forall k :: k in init ==> k in keys;
      ShareSumIsKeySum(init, counts);
      assert Shares(keys, counts)[..|keys| - 1] == Shares(init, counts);
    }
  }

  /** The sum of the payments of `s` made with method `m`, added up in list order. */
  function MethodSum(s: seq<Payment>, m: string): Money {
    if s == [] then 0
    else MethodSum(s[..|s| - 1], m) + (if s[|s| - 1].paymentMethod == m then s[|s| - 1].amount else 0)
  }

  /** Adding up in order gives the sum of the filtered list. */
  lemma {:induction false} MethodSumIsFilter(s: seq<Payment>, m: string)
    ensures MethodSum(s, m) == SumAmounts(Filter(s, WithMethod(m)))
  {
    if s != [] {
      var init, last := s[..|s| - 1], s[|s| - 1];
      MethodSumIsFilter(init, m);
      assert s == init + [last];
      FilterAppend(init, [last], WithMethod(m));
      SumAmountsAppend(Filter(init, WithMethod(m)), Filter([last], WithMethod(m)));
      assert [last][1..] == [];
      assert SumAmounts([last]) == last.amount + SumAmounts([]);
    }
  }

  /** The payment methods used in `s`. */
  function Methods(s: seq<Payment>): set<string> {
    if s == [] then {} else Methods(s[..|s| - 1]) + {s[|s| - 1].paymentMethod}
  }

  /** The payment methods of `s` in the order they first appear, each once:
      the order in which `methodCounts` gains its keys. */
  function FirstUses(s: seq<Payment>): (r: seq<string>)
    ensures forall m :: m in r <==> m in Methods(s)
    ensures forall a, b :: 0 <= a < b < |r| ==> r[a] != r[b]
  {
    if s == [] then []
    else
      var seen := FirstUses(s[..|s| - 1]);
      if s[|s| - 1].paymentMethod in seen then seen else seen + [s[|s| - 1].paymentMethod]
  }

  /** A payment adds its method at the end of the first-use order unless it is already there. */
  lemma FirstUsesAppend(s: seq<Payment>, p: Payment)
    ensures FirstUses(s + [p]) ==
      if p.paymentMethod in Methods(s) then FirstUses(s) else FirstUses(s) + [p.paymentMethod]
  {
    assert (s + [p])[..|s|] == s;
  }

  lemma {:induction false} MethodsUsed(s: seq<Payment>, m: string)
    ensures m in Methods(s) <==> exists j :: 0 <= j < |s| && s[j].paymentMethod == m
  {
    if s != [] {
      var init := s[..|s| - 1];
      MethodsUsed(init, m);
      if m in Methods(init) {
        var j :| 0 <= j < |init| && init[j].paymentMethod == m;
        assert s[j] == init[j];
      }
      forall j | 0 <= j < |s| - 1 && s[j].paymentMethod == m ensures m in Methods(init) {
        assert init[j] == s[j];
      }
    }
  }

  /** A method no payment of `s` uses has nothing to sum. */
  lemma {:induction false} UnusedMethodSum(s: seq<Payment>, m: string)
    requires m !in Methods(s)
    ensures MethodSum(s, m) == 0
  {
    if s != [] {
      UnusedMethodSum(s[..|s| - 1], m);
    }
  }

  /** `keys` lists the keys of `counts` once each: the order `Object.entries` returns them in. */
  ghost predicate KeyOrder(keys: seq<string>, counts: map<string, Money>) {
    && (forall k :: k in keys <==> k in counts)
    && (forall a, b :: 0 <= a < b < |keys| ==> keys[a] != keys[b])
  }

  /** `counts` maps each method used in `s` to the sum of its payments. */
  ghost predicate CountsAreSums(s: seq<Payment>, counts: map<string, Money>) {
    && counts.Keys == Methods(s)
    && (forall m :: m in counts ==> counts[m] == MethodSum(s, m))
  }

  /** `methodCounts` and its key order after the payments `s` have been added:
      the keys in first-use order, each mapped to its method's sum. */
  ghost predicate Tallied(s: seq<Payment>, keys: seq<string>, counts: map<string, Money>) {
    keys == FirstUses(s) && Totals(s, keys, counts)
  }

  /** The keys listed once each, each mapped to its method's sum, and adding up to the whole. */
  ghost predicate Totals(s: seq<Payment>, keys: seq<string>, counts: map<string, Money>) {
    KeyOrder(keys, counts) && CountsAreSums(s, counts) && KeySum(keys, counts) == SumAmounts(s)
  }

  lemma SumAmountsAppendOne(s: seq<Payment>, p: Payment)
    ensures SumAmounts(s + [p]) == SumAmounts(s) + p.amount
  {
    SumAmountsAppend(s, [p]);
    assert SumAmounts([p]) == p.amount + SumAmounts([]);
  }

  lemma CountsAfterAdd(s: seq<Payment>, p: Payment, counts: map<string, Money>, v: Money)
    requires CountsAreSums(s, counts)
    requires v == MethodSum(s, p.paymentMethod) + p.amount
    ensures CountsAreSums(s + [p], counts[p.paymentMethod := v])
  {
    assert (s + [p])[..|s|] == s;
  }

  /** One step of the `forEach`, for a method already in the tally. */
  lemma TallyKnown(s: seq<Payment>, p: Payment, keys: seq<string>, counts: map<string, Money>)
    requires Tallied(s, keys, counts) && p.paymentMethod in counts
    ensures Tallied(s + [p], keys, counts[p.paymentMethod := counts[p.paymentMethod] + p.amount])
  {
    FirstUsesAppend(s, p);
    TotalsKnown(s, p, keys, counts);
  }

  /** One step of the `forEach`, for a method seen for the first time. */
  lemma TallyNew(s: seq<Payment>, p: Payment, keys: seq<string>, counts: map<string, Money>)
    requires Tallied(s, keys, counts) && p.paymentMethod !in counts
    ensures Tallied(s + [p], keys + [p.paymentMethod], counts[p.paymentMethod := p.amount])
  {
    FirstUsesAppend(s, p);
    TotalsNew(s, p, keys, counts);
  }

  lemma TotalsKnown(s: seq<Payment>, p: Payment, keys: seq<string>, counts: map<string, Money>)
    requires Totals(s, keys, counts) && p.paymentMethod in counts
    ensures Totals(s + [p], keys, counts[p.paymentMethod := counts[p.paymentMethod] + p.amount])
  {
    var m := p.paymentMethod;
    assert counts[m := counts[m] + p.amount].Keys == counts.Keys;
    CountsAfterAdd(s, p, counts, counts[m] + p.amount);
    SumAmountsAppendOne(s, p);
    KeySumAdd(keys, counts, m, p.amount);
  }

  lemma TotalsNew(s: seq<Payment>, p: Payment, keys: seq<string>, counts: map<string, Money>)
    requires Totals(s, keys, counts) && p.paymentMethod !in counts
    ensures Totals(s + [p], keys + [p.paymentMethod], counts[p.paymentMethod := p.amount])
  {
    KeyOrderAfterNew(keys, counts, p.paymentMethod, p.amount);
    UnusedMethodSum(s, p.paymentMethod);
    CountsAfterAdd(s, p, counts, p.amount);
    SumAmountsAppendOne(s, p);
    KeySumOther(keys, counts, p.paymentMethod, p.amount);
  }

  /** A new method goes at the end of the key order. */
  lemma KeyOrderAfterNew(keys: seq<string>, counts: map<string, Money>, m: string, v: Money)
    requires KeyOrder(keys, counts) && m !in counts
    ensures KeyOrder(keys + [m], counts[m := v])
  {
    var keys' := keys + [m];
    assert forall k :: k in keys' <==> k in keys || k == m;
  }

  /** `processPaymentMethodData`: the `PAID` payments are added into
      `methodCounts`, one entry per method in the order methods first
      appear, and the entries become the chart's segments. */
  method ProcessPaymentMethodData(payments: seq<Payment>) returns (data: seq<MethodShare>)
    ensures var order := FirstUses(Filter(payments, IsPaid));
      |data| == |order| && forall k :: 0 <= k < |data| ==> data[k].name == order[k]
    ensures forall i, j :: 0 <= i < j < |data| ==> data[i].name != data[j].name
    ensures forall k :: 0 <= k < |data| ==> data[k].value == MethodTotal(payments, data[k].name)
    ensures forall m :: m in Names(data) <==> HasPaidPayment(payments, m)
    ensures ShareSum(data) == FinanceStats.TotalRevenue(payments)
  {
    var paid := Filter(payments, IsPaid);
    var methodCounts, keys := AddUp(paid);
    data := Shares(keys, methodCounts);
    ShareSumIsKeySum(keys, methodCounts);
    SharesAreMethodTotals(payments, paid, keys, methodCounts);
    forall m ensures m in Names(data) <==> HasPaidPayment(payments, m) {
      PaidMethods(payments, m);
    }
  }

  /** The `forEach` of `processPaymentMethodData`: `methodCounts[m] =
      (methodCounts[m] || 0) + p.amount` for each payment in turn, with
      `keys` the order in which the methods entered the object. */
  method AddUp(paid: seq<Payment>) returns (methodCounts: map<string, Money>, keys: seq<string>)
    ensures Tallied(paid, keys, methodCounts)
  {
    methodCounts, keys := map[], [];
    for i := 0 to |paid|
      invariant Tallied(paid[..i], keys, methodCounts)
    {
      var p := paid[i];
      assert paid[..i + 1] == paid[..i] + [p];
      if p.paymentMethod in methodCounts {
        TallyKnown(paid[..i], p, keys, methodCounts);
        methodCounts := methodCounts[p.paymentMethod := methodCounts[p.paymentMethod] + p.amount];
      } else {
        TallyNew(paid[..i], p, keys, methodCounts);
        methodCounts := methodCounts[p.paymentMethod := p.amount];
        keys := keys + [p.paymentMethod];
      }
    }
    assert paid[..|paid|] == paid;
  }

  lemma SharesAreMethodTotals(payments: seq<Payment>, paid: seq<Payment>, keys: seq<string>, counts: map<string, Money>)
    requires paid == Filter(payments, IsPaid)
    requires KeyOrder(keys, counts) && CountsAreSums(paid, counts)
    ensures var data := Shares(keys, counts);
      forall k :: 0 <= k < |data| ==> data[k].value == MethodTotal(payments, data[k].name)
  {
    var data := Shares(keys, counts);
    forall k | 0 <= k < |data| ensures data[k].value == MethodTotal(payments, data[k].name) {
      MethodSumIsFilter(paid, data[k].name);
    }
  }

  /** Exactly the methods used by a `PAID` payment appear in the tally of the `PAID` payments. */
  lemma PaidMethods(payments: seq<Payment>, m: string)
    ensures m in Methods(Filter(payments, IsPaid)) <==> HasPaidPayment(payments, m)
  {
    var paid := Filter(payments, IsPaid);
    MethodsUsed(paid, m);
    if m in Methods(paid) {
      var j :| 0 <= j < |paid| && paid[j].paymentMethod == m;
      assert paid[j] in paid;
    }
    if HasPaidPayment(payments, m) {
      var p :| p in payments && IsPaid(p) && p.paymentMethod == m;
      assert p in paid;
      var j :| 0 <= j < |paid| && paid[j] == p;
    }
  }

  /** "Average Transaction": the total revenue over the number of payments
      of every status, or 0 when there are none. */
  function AverageTransaction(stats: FinanceStats.Stats, payments: seq<Payment>): (r: real)
    ensures |payments| == 0 ==> r == 0.0
    ensures |payments| > 0 ==> r * (|payments| as real) == stats.totalRevenue as real
  {
    if |payments| > 0 then (stats.totalRevenue as real) / (|payments| as real) else 0.0
  }

  /** One `PAID` and one `PENDING` payment of 100.00 each average 50.00, not 100.00. */
  lemma AverageCountsUnpaid(paid: Payment, pending: Payment)
    requires paid.amount == 10000 && paid.paymentStatus == PAID
    requires pending.amount == 10000 && pending.paymentStatus == "PENDING"
    ensures var payments := [paid, pending];
      AverageTransaction(FinanceStats.Stats(FinanceStats.TotalRevenue(payments), 0, 0, 0), payments) == 5000.0
  {
    var payments := [paid, pending];
    assert payments[1..][1..] == [];
    assert Filter(payments, IsPaid) == [paid] + Filter(payments[1..], IsPaid);
    assert Filter(payments[1..], IsPaid) == Filter(payments[1..][1..], IsPaid) == [];
    assert SumAmounts([paid]) == 10000 + SumAmounts([]);
  }

  /** `payments.slice(0, 10)`: the newest ten payments at most. */
  function RecentPayments(payments: seq<Payment>): (r: seq<Payment>)
    ensures |r| <= 10 && |r| <= |payments|
    ensures |payments| >= 10 ==> |r| == 10
    ensures |payments| < 10 ==> r == payments
    ensures forall i :: 0 <= i < |r| ==> r[i] == payments[i]
  {
    Take(payments, 10)
  }
}
