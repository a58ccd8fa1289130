/** The database behind the route handlers: one in-memory table per
    model, with the three Prisma calls the core routes make — `create`
    on each table and the `availableQty` decrement of
    `inventoryItem.update`. Each row id is unique within its table, as
    the primary key guarantees. */
module Store {

  import opened Optional
  import opened Entities

  function Ids<T>(rows: seq<T>, id: T -> string): set<string> {
    set i | 0 <= i < |rows| :: id(rows[i])
  }

  /** The position of the first row with id `id`, if there is one. */
  function IndexOfItem(items: seq<InventoryItem>, id: string): (r: Option<nat>)
    ensures r.Some? ==> r.value < |items| && items[r.value].id == id
    ensures r.Some? ==> forall j :: 0 <= j < r.value ==> items[j].id != id
    ensures r.None? ==> id !in Ids(items, ItemId)
  {
    if items == [] then None
    else if items[0].id == id then Some(0)
    else
      var rest := IndexOfItem(items[1..], id);
      assert forall i :: 0 < i < |items| ==> items[1..][i - 1] == items[i];
      if rest.Some? then Some(rest.value + 1) else None
  }

  /** Appending a row whose id is not yet taken keeps the ids unique. */
  lemma AppendKeepsUnique<T>(rows: seq<T>, row: T, id: T -> string)
    requires UniqueIds(rows, id) && id(row) !in Ids(rows, id)
    ensures UniqueIds(rows + [row], id)
  {
    var r := rows + [row];
    forall i, j | 0 <= i < j < |r| ensures id(r[i]) != id(r[j]) {
      if j == |rows| {
        assert id(r[i]) in Ids(rows, id);
      }
    }
  }

  /** `availableQty: { decrement: amount }` applied to the rows whose id is `id`. */
  function Decrement(items: seq<InventoryItem>, id: string, amount: int): seq<InventoryItem> {
    seq(|items|, i requires 0 <= i < |items| =>
      if items[i].id == id then items[i].(availableQty := items[i].availableQty - amount) else items[i])
  }

  class Database {
    var items: seq<InventoryItem>
    var rentals: seq<Rental>
    var payments: seq<Payment>

    ghost predicate Valid()
      reads this
    {
      && UniqueIds(items, ItemId)
      && UniqueIds(rentals, RentalId)
      && UniqueIds(payments, PaymentId)
    }

    constructor ()
      ensures Valid()
      ensures items == [] && rentals == [] && payments == []
    {
      items, rentals, payments := [], [], [];
    }

    /** `prisma.inventoryItem.create`; it throws when the id is already taken. */
    method CreateItem(item: InventoryItem) returns (ok: bool)
      requires Valid()
      modifies this
      ensures Valid()
      ensures ok <==> item.id !in Ids(old(items), ItemId)
      ensures items == if ok then old(items) + [item] else old(items)
      ensures rentals == old(rentals) && payments == old(payments)
    {
      ok := item.id !in Ids(items, ItemId);
      if ok {
        AppendKeepsUnique(items, item, ItemId);
        items := items + [item];
      }
    }

    /** `prisma.rental.create`, the rental row together with its lines. */
    method CreateRental(rental: Rental) returns (ok: bool)
      requires Valid()
      modifies this
      ensures Valid()
      ensures ok <==> rental.id !in Ids(old(rentals), RentalId)
      ensures rentals == if ok then old(rentals) + [rental] else old(rentals)
      ensures items == old(items) && payments == old(payments)
    {
      ok := rental.id !in Ids(rentals, RentalId);
      if ok {
        AppendKeepsUnique(rentals, rental, RentalId);
        rentals := rentals + [rental];
      }
    }

    /** `prisma.payment.create`. */
    method CreatePayment(payment: Payment) returns (ok: bool)
      requires Valid()
      modifies this
      ensures Valid()
      ensures ok <==> payment.id !in Ids(old(payments), PaymentId)
      ensures payments == if ok then old(payments) + [payment] else old(payments)
      ensures items == old(items) && rentals == old(rentals)
    {
      ok := payment.id !in Ids(payments, PaymentId);
      if ok {
        AppendKeepsUnique(payments, payment, PaymentId);
        payments := payments + [payment];
      }
    }

    /** `prisma.inventoryItem.update({ where: { id }, data: { availableQty: { decrement: amount } } })`;
        it throws when no row has that id. Nothing bounds the new value. */
    method DecrementAvailable(id: string, amount: int) returns (ok: bool)
      requires Valid()
      modifies this
      ensures Valid()
      ensures ok <==> id in Ids(old(items), ItemId)
      ensures items == Decrement(old(items), id, amount)
      ensures !ok ==> items == old(items)
      ensures rentals == old(rentals) && payments == old(payments)
    {
      var k := IndexOfItem(items, id);
      if k.None? {
        ok := false;
        assert items == Decrement(items, id, amount);
        return;
      }
      ok := true;
      var i := k.value;
      ghost var before := items;
      items := items[i := items[i].(availableQty := items[i].availableQty - amount)];
      assert forall j :: 0 <= j < |before| && j != i ==> before[j].id != id;
      assert items == Decrement(before, id, amount);
    }
  }
}
