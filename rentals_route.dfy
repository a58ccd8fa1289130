/** `/api/rentals`: listing rentals and creating one. Creating a rental
    first writes the rental row with its lines, then decrements each
    named item's `availableQty` by the line's quantity, one update per
    line, with no stock check, no transaction and no rollback. */
module RentalsRoute {

  import opened Optional
  import opened Seqs
  import opened Calendar
  import opened Text
  import opened Http
  import opened Entities
  import opened Store

  /** The JSON body of `POST /api/rentals`; `items` are the lines as the
      client computed them. */
  datatype RentalBody = RentalBody(
    customerId: string,
    startDate: string,
    endDate: string,
    totalAmount: Money,
    deposit: Option<Money>,
    status: Option<string>,
    notes: Option<string>,
    items: seq<RentalLine>)

  const RENTAL_NUMBER_PREFIX := "RNT-"

  /** `` `RNT-${Date.now()}` ``: the prefix followed by the clock reading in decimal. */
  function RentalNumber(nowMillis: nat): (s: string)
    ensures |s| > |RENTAL_NUMBER_PREFIX| && s[..|RENTAL_NUMBER_PREFIX|] == RENTAL_NUMBER_PREFIX
    ensures var digits := s[|RENTAL_NUMBER_PREFIX|..];
      (forall i :: 0 <= i < |digits| ==> '0' <= digits[i] <= '9') && DecimalValue(digits) == nowMillis
  {
    var s := RENTAL_NUMBER_PREFIX + Decimal(nowMillis);
    assert s[|RENTAL_NUMBER_PREFIX|..] == Decimal(nowMillis);
    DecimalRoundTrip(nowMillis);
    s
  }

  /** Rentals created at different clock readings get different numbers. */
  lemma RentalNumbersDistinct(a: nat, b: nat)
    requires a != b
    ensures RentalNumber(a) != RentalNumber(b)
  {
  }

  /** The row `prisma.rental.create` writes: `deposit || 0`,
      `status || 'PENDING'`, the caller as creator, and the amounts and
      lines exactly as supplied. */
  function NewRental(id: string, body: RentalBody, caller: User, nowMillis: nat, createdAt: Instant): (r: Rental)
    ensures r.deposit == (if body.deposit.Some? then body.deposit.value else 0)
    ensures r.status == (if body.status.Some? && body.status.value != "" then body.status.value else PENDING)
    ensures r.totalAmount == body.totalAmount && r.lines == body.items
    ensures r.customerId == body.customerId && r.notes == body.notes
    ensures r.startDate == body.startDate && r.endDate == body.endDate
    ensures r.createdById == caller.id && r.rentalNumber == RentalNumber(nowMillis)
    ensures r.id == id && r.createdAt == createdAt
  {
    Rental(
      id := id,
      rentalNumber := RentalNumber(nowMillis),
      customerId := body.customerId,
      startDate := body.startDate,
      endDate := body.endDate,
      totalAmount := body.totalAmount,
      deposit := NumberOrZero(body.deposit),
      status := StringOr(body.status, PENDING),
      notes := body.notes,
      createdById := caller.id,
      createdAt := createdAt,
      lines := body.items)
  }

  /** The sum of the subtotals of `lines`. */
  function SubtotalSum(lines: seq<RentalLine>): Money {
    if lines == [] then 0 else lines[0].subtotal + SubtotalSum(lines[1..])
  }

  /** The stored total is the supplied one even when it disagrees with
      the lines, and a line's subtotal is never recomputed from its
      quantity and unit price. */
  lemma AmountsStoredAsSupplied(caller: User, createdAt: Instant)
    ensures var body := RentalBody("c1", "", "", 999, None, None, None, [RentalLine("i1", 2, 50, 7)]);
      var r := NewRental("r1", body, caller, 0, createdAt);
      && r.totalAmount == 999 != SubtotalSum(r.lines)
      && r.lines[0].subtotal == 7 != r.lines[0].quantity * r.lines[0].pricePerUnit
  {
    var lines := [RentalLine("i1", 2, 50, 7)];
    assert SubtotalSum(lines) == 7 + SubtotalSum(lines[1..]);
  }

  /** The total quantity the lines request of item `id`. */
  function QtyFor(lines: seq<RentalLine>, id: string): int {
    if lines == [] then 0
    else QtyFor(lines[..|lines| - 1], id) + (if lines[|lines| - 1].itemId == id then lines[|lines| - 1].quantity else 0)
  }

  /** The item table after one decrement per line, in line order. */
  function DecrementAll(items: seq<InventoryItem>, lines: seq<RentalLine>): seq<InventoryItem> {
    if lines == [] then items
    else
      var last := lines[|lines| - 1];
      Decrement(DecrementAll(items, lines[..|lines| - 1]), last.itemId, last.quantity)
  }

  /** After the loop, each item's `availableQty` has dropped by exactly the
      quantity its lines request (0 for items no line names); nothing else
      in the table changes. */
  lemma {:induction false} DecrementAllEffect(items: seq<InventoryItem>, lines: seq<RentalLine>)
    ensures |DecrementAll(items, lines)| == |items|
    ensures forall j :: 0 <= j < |items| ==>
      DecrementAll(items, lines)[j] == items[j].(availableQty := items[j].availableQty - QtyFor(lines, items[j].id))
  {
    if lines != [] {
      DecrementAllEffect(items, lines[..|lines| - 1]);
    }
  }

  /** The decrements change no id. */
  lemma DecrementAllKeepsIds(items: seq<InventoryItem>, lines: seq<RentalLine>)
    ensures Ids(DecrementAll(items, lines), ItemId) == Ids(items, ItemId)
  {
    DecrementAllEffect(items, lines);
    var after := DecrementAll(items, lines);
    assert forall j :: 0 <= j < |items| ==> after[j].id == items[j].id;
  }

  /** Nothing bounds `availableQty` below: a line asking for more than is
      available drives it negative. */
  lemma NoStockCheck(item: InventoryItem)
    requires item.availableQty == 1
    ensures |DecrementAll([item], [RentalLine(item.id, 2, 0, 0)])| == 1
    ensures DecrementAll([item], [RentalLine(item.id, 2, 0, 0)])[0].availableQty == -1
  {
    DecrementAllEffect([item], [RentalLine(item.id, 2, 0, 0)]);
    assert [RentalLine(item.id, 2, 0, 0)][..0] == [];
  }

  /** The first line whose item id is not in the table: the update that throws. */
  function FirstUnknownLine(items: seq<InventoryItem>, lines: seq<RentalLine>): (r: Option<nat>)
    ensures r.Some? ==> r.value < |lines| && lines[r.value].itemId !in Ids(items, ItemId)
    ensures r.Some? ==> forall j :: 0 <= j < r.value ==> lines[j].itemId in Ids(items, ItemId)
    ensures r.None? ==> forall j :: 0 <= j < |lines| ==> lines[j].itemId in Ids(items, ItemId)
  {
    if lines == [] then None
    else if lines[0].itemId !in Ids(items, ItemId) then Some(0)
    else
      var rest := FirstUnknownLine(items, lines[1..]);
      assert forall j :: 0 < j < |lines| ==> lines[1..][j - 1] == lines[j];
      if rest.Some? then Some(rest.value + 1) else None
  }

  /** `POST /api/rentals`. */
  method Post(db: Database, session: Session, body: RentalBody, id: string, nowMillis: nat, createdAt: Instant)
    returns (resp: Response<Rental>)
    requires db.Valid()
    modifies db
    ensures db.Valid()
    ensures session.None? || id in Ids(old(db.rentals), RentalId) ==>
      db.items == old(db.items) && db.rentals == old(db.rentals) && db.payments == old(db.payments)
    ensures session.None? ==> resp == Unauthorized
    ensures session.Some? && id in Ids(old(db.rentals), RentalId) ==> resp == ServerError
    ensures session.Some? && id !in Ids(old(db.rentals), RentalId) ==>
      var rental := NewRental(id, body, session.value, nowMillis, createdAt);
      && db.rentals == old(db.rentals) + [rental]
      && db.payments == old(db.payments)
      && (FirstUnknownLine(old(db.items), body.items).None? ==>
            resp == Ok(rental) && db.items == DecrementAll(old(db.items), body.items))
      && (FirstUnknownLine(old(db.items), body.items).Some? ==>
            resp == ServerError
            && db.items == DecrementAll(old(db.items), body.items[..FirstUnknownLine(old(db.items), body.items).value]))
  {
    if session.None? {
      return Unauthorized;
    }
    var rental := NewRental(id, body, session.value, nowMillis, createdAt);
    var created := db.CreateRental(rental);
    if !created {
      return ServerError;
    }
    var ok := DecrementLines(db, body.items);
    resp := if ok then Ok(rental) else ServerError;
  }

  /** The items of the first `i` lines are all in the table. */
  ghost predicate KnownUpTo(items: seq<InventoryItem>, lines: seq<RentalLine>, i: nat) {
    forall j :: 0 <= j < i && j < |lines| ==> lines[j].itemId in Ids(items, ItemId)
  }

  lemma KnownStep(items: seq<InventoryItem>, lines: seq<RentalLine>, i: nat)
    requires KnownUpTo(items, lines, i) && i < |lines| && lines[i].itemId in Ids(items, ItemId)
    ensures KnownUpTo(items, lines, i + 1)
  {
  }

  /** The first unknown line is the first line, in order, whose item is missing. */
  lemma FirstUnknownLineAt(items: seq<InventoryItem>, lines: seq<RentalLine>, i: nat)
    requires i < |lines| && lines[i].itemId !in Ids(items, ItemId)
    requires KnownUpTo(items, lines, i)
    ensures FirstUnknownLine(items, lines) == Some(i)
  {
  }

  /** The loop `for (const item of body.items)` of `POST /api/rentals`:
      one `availableQty` decrement per line, stopping at the first update
      that throws; the decrements already made stay. */
  method DecrementLines(db: Database, lines: seq<RentalLine>) returns (ok: bool)
    requires db.Valid()
    modifies db
    ensures db.Valid()
    ensures db.rentals == old(db.rentals) && db.payments == old(db.payments)
    ensures ok <==> FirstUnknownLine(old(db.items), lines).None?
    ensures ok ==> db.items == DecrementAll(old(db.items), lines)
    ensures !ok ==> db.items == DecrementAll(old(db.items), lines[..FirstUnknownLine(old(db.items), lines).value])
  {
    ghost var before := db.items;
    for i := 0 to |lines|
      invariant db.Valid()
      invariant db.rentals == old(db.rentals) && db.payments == old(db.payments)
      invariant db.items == DecrementAll(before, lines[..i])
      invariant KnownUpTo(before, lines, i)
    {
      DecrementAllKeepsIds(before, lines[..i]);
      ok := db.DecrementAvailable(lines[i].itemId, lines[i].quantity);
      if !ok {
        FirstUnknownLineAt(before, lines, i);
        return;
      }
      KnownStep(before, lines, i);
      DecrementAllStep(before, lines, i);
    }
    assert lines[..|lines|] == lines;
    ok := true;
  }

  /** One more line is one more decrement. */
  lemma DecrementAllStep(items: seq<InventoryItem>, lines: seq<RentalLine>, i: nat)
    requires i < |lines|
    ensures DecrementAll(items, lines[..i + 1]) == Decrement(DecrementAll(items, lines[..i]), lines[i].itemId, lines[i].quantity)
  {
    assert lines[..i + 1][..i] == lines[..i];
  }

  /** A rental as `GET /api/rentals` returns it, with its payments joined in. */
  datatype RentalView = RentalView(rental: Rental, payments: seq<Payment>)

  function ViewCreatedAt(v: RentalView): Instant { v.rental.createdAt }

  function Views(rentals: seq<Rental>, payments: seq<Payment>): (r: seq<RentalView>)
    ensures |r| == |rentals|
    ensures forall k :: 0 <= k < |r| ==> r[k].rental == rentals[k] && r[k].payments == PaymentsOf(payments, rentals[k].id)
  {
    seq(|rentals|, k requires 0 <= k < |rentals| => RentalView(rentals[k], PaymentsOf(payments, rentals[k].id)))
  }

  /** `GET /api/rentals`: every rental, newest first, each with all of its payments. */
  function Get(session: Session, rentals: seq<Rental>, payments: seq<Payment>): (r: Response<seq<RentalView>>)
    ensures r.Unauthorized? <==> session.None?
    ensures r.StatusCode() == (if session.None? then 401 else 200)
    ensures !r.ServerError?
    ensures r.Ok? ==> |r.body| == |rentals|
    ensures r.Ok? ==> forall k :: 0 <= k < |r.body| ==> r.body[k].payments == PaymentsOf(payments, r.body[k].rental.id)
    ensures r.Ok? ==> NewestFirst(r.body, ViewCreatedAt)
    ensures r.Ok? ==> multiset(seq(|r.body|, k requires 0 <= k < |r.body| => r.body[k].rental)) == multiset(rentals)
  {
    if session.None? then Unauthorized
    else
      var sorted := SortNewestFirst(rentals, RentalCreatedAt);
      assert |multiset(sorted)| == |multiset(rentals)|;
      var views := Views(sorted, payments);
      assert seq(|views|, k requires 0 <= k < |views| => views[k].rental) == sorted;
      Ok(views)
  }
}
