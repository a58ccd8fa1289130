/** The records stored by the application: inventory items, customers,
    rentals with their line items, and payments. Money is counted in
    integer cents. */
module Entities {

  import opened Optional
  import opened Calendar
  import opened Seqs

  type Money = int

  // Rental statuses
  const PENDING := "PENDING"
  const ACTIVE := "ACTIVE"
  const COMPLETED := "COMPLETED"
  const CANCELLED := "CANCELLED"

  // Payment status written when the request names none
  const PAID := "PAID"

  // Item status written when the request names none
  const AVAILABLE := "AVAILABLE"

  datatype InventoryItem = InventoryItem(
    id: string,
    name: string,
    category: string,
    description: Option<string>,
    quantity: int,
    availableQty: int,
    pricePerDay: Money,
    pricePerWeek: Option<Money>,
    status: string,
    createdAt: Instant)

  datatype Customer = Customer(
    id: string,
    name: string,
    email: Option<string>,
    phone: string,
    address: Option<string>,
    createdAt: Instant)

  /** A rental line: `quantity` units of item `itemId`. */
  datatype RentalLine = RentalLine(itemId: string, quantity: int, pricePerUnit: Money, subtotal: Money)

  datatype Rental = Rental(
    id: string,
    rentalNumber: string,
    customerId: string,
    startDate: string,
    endDate: string,
    totalAmount: Money,
    deposit: Money,
    status: string,
    notes: Option<string>,
    createdById: string,
    createdAt: Instant,
    lines: seq<RentalLine>)

  datatype Payment = Payment(
    id: string,
    rentalId: string,
    amount: Money,
    paymentMethod: string,
    paymentStatus: string,
    transactionId: Option<string>,
    notes: Option<string>,
    recordedById: string,
    createdAt: Instant)

  /** No two rows of a table share an id. */
  ghost predicate UniqueIds<T>(rows: seq<T>, id: T -> string) {
    forall i, j :: 0 <= i < j < |rows| ==> id(rows[i]) != id(rows[j])
  }

  function ItemId(item: InventoryItem): string { item.id }
  function RentalId(rental: Rental): string { rental.id }
  function PaymentId(payment: Payment): string { payment.id }

  function ItemCreatedAt(item: InventoryItem): Instant { item.createdAt }
  function RentalCreatedAt(rental: Rental): Instant { rental.createdAt }
  function PaymentCreatedAt(payment: Payment): Instant { payment.createdAt }

  predicate IsPaid(p: Payment) {
    p.paymentStatus == PAID
  }

  /** `payments.reduce((sum, p) => sum + p.amount, 0)`. */
  function SumAmounts(ps: seq<Payment>): Money {
    if ps == [] then 0 else ps[0].amount + SumAmounts(ps[1..])
  }

  lemma {:induction false} SumAmountsAppend(a: seq<Payment>, b: seq<Payment>)
    ensures SumAmounts(a + b) == SumAmounts(a) + SumAmounts(b)
  {
    if a == [] {
      assert a + b == b;
    } else {
      assert (a + b)[1..] == a[1..] + b;
      SumAmountsAppend(a[1..], b);
    }
  }

  /** The `payments` relation of a rental: the payments recorded against it, any status. */
  function PaymentsOf(ps: seq<Payment>, rentalId: string): seq<Payment> {
    Filter(ps, (p: Payment) => p.rentalId == rentalId)
  }

  /** Splitting a filter by two exclusive conditions splits its sum. */
  lemma {:induction false} SumFilterDisjoint(ps: seq<Payment>, either: Payment -> bool, left: Payment -> bool, right: Payment -> bool)
    requires forall p :: either(p) == (left(p) || right(p))
    requires forall p :: !(left(p) && right(p))
    ensures SumAmounts(Filter(ps, either)) == SumAmounts(Filter(ps, left)) + SumAmounts(Filter(ps, right))
  {
    if ps != [] {
      SumFilterDisjoint(ps[1..], either, left, right);
    }
  }

  /** With non-negative amounts, a stricter filter never sums to more. */
  lemma {:induction false} SumFilterMonotone(ps: seq<Payment>, wide: Payment -> bool, narrow: Payment -> bool)
    requires forall p :: narrow(p) ==> wide(p)
    requires forall p :: p in ps && wide(p) ==> p.amount >= 0
    ensures SumAmounts(Filter(ps, narrow)) <= SumAmounts(Filter(ps, wide))
  {
    if ps != [] {
      SumFilterMonotone(ps[1..], wide, narrow);
    }
  }
}
