/** `/api/payments`: the payment ledger. Listing is for administrators;
    any signed-in user may record a payment, which is appended and never
    changes an existing one. */
module PaymentsRoute {

  import opened Optional
  import opened Calendar
  import opened Http
  import opened Entities
  import opened Store

  /** The JSON body of `POST /api/payments`. */
  datatype PaymentBody = PaymentBody(
    rentalId: string,
    amount: Money,
    paymentMethod: string,
    paymentStatus: Option<string>,
    transactionId: Option<string>,
    notes: Option<string>)

  /** The row `prisma.payment.create` writes: `paymentStatus || 'PAID'`,
      the caller as recorder, everything else copied from the body. */
  function NewPayment(id: string, body: PaymentBody, caller: User, createdAt: Instant): (p: Payment)
    ensures p.paymentStatus == (if body.paymentStatus.Some? && body.paymentStatus.value != "" then body.paymentStatus.value else PAID)
    ensures p.rentalId == body.rentalId && p.amount == body.amount && p.paymentMethod == body.paymentMethod
    ensures p.transactionId == body.transactionId && p.notes == body.notes
    ensures p.recordedById == caller.id && p.id == id && p.createdAt == createdAt
  {
    Payment(
      id := id,
      rentalId := body.rentalId,
      amount := body.amount,
      paymentMethod := body.paymentMethod,
      paymentStatus := StringOr(body.paymentStatus, PAID),
      transactionId := body.transactionId,
      notes := body.notes,
      recordedById := caller.id,
      createdAt := createdAt)
  }

  /** `GET /api/payments`: every payment, newest first, for administrators only. */
  function Get(session: Session, payments: seq<Payment>): (r: Response<seq<Payment>>)
    ensures r.Unauthorized? <==> !IsAdmin(session)
    ensures r.StatusCode() == (if IsAdmin(session) then 200 else 401)
    ensures !r.ServerError?
    ensures r.Ok? ==> NewestFirst(r.body, PaymentCreatedAt) && multiset(r.body) == multiset(payments)
  {
    if !IsAdmin(session) then Unauthorized else Ok(SortNewestFirst(payments, PaymentCreatedAt))
  }

  /** `POST /api/payments`: appends exactly one payment, or nothing. */
  method Post(db: Database, session: Session, body: PaymentBody, id: string, createdAt: Instant)
    returns (resp: Response<Payment>)
    requires db.Valid()
    modifies db
    ensures db.Valid()
    ensures db.items == old(db.items) && db.rentals == old(db.rentals)
    ensures session.None? ==> resp == Unauthorized && db.payments == old(db.payments)
    ensures session.Some? && id in Ids(old(db.payments), PaymentId) ==> resp == ServerError && db.payments == old(db.payments)
    ensures session.Some? && id !in Ids(old(db.payments), PaymentId) ==>
      var p := NewPayment(id, body, session.value, createdAt);
      resp == Ok(p) && db.payments == old(db.payments) + [p]
  {
    if session.None? {
      return Unauthorized;
    }
    var payment := NewPayment(id, body, session.value, createdAt);
    var ok := db.CreatePayment(payment);
    resp := if ok then Ok(payment) else ServerError;
  }
}
