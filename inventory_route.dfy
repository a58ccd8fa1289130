/** `/api/inventory`: listing the items (any signed-in user) and creating
    one. A new item starts with every unit available. */
module InventoryRoute {

  import opened Optional
  import opened Calendar
  import opened Http
  import opened Entities
  import opened Store

  /** The JSON body of `POST /api/inventory`. The form sends `availableQty`
      too; the handler never reads it. */
  datatype ItemBody = ItemBody(
    name: string,
    category: string,
    description: Option<string>,
    quantity: int,
    availableQty: Option<int>,
    pricePerDay: Money,
    pricePerWeek: Option<Money>,
    status: Option<string>)

  /** The row `prisma.inventoryItem.create` writes for `body`; `id` and
      `createdAt` are filled in by the database. */
  function NewItem(id: string, body: ItemBody, createdAt: Instant): (item: InventoryItem)
    ensures item.availableQty == item.quantity == body.quantity
    ensures item.status == StringOr(body.status, AVAILABLE)
    ensures item.status == AVAILABLE <== body.status.None?
    ensures item.name == body.name && item.category == body.category && item.description == body.description
    ensures item.pricePerDay == body.pricePerDay && item.pricePerWeek == body.pricePerWeek
    ensures item.id == id && item.createdAt == createdAt
  {
    InventoryItem(
      id := id,
      name := body.name,
      category := body.category,
      description := body.description,
      quantity := body.quantity,
      availableQty := body.quantity,
      pricePerDay := body.pricePerDay,
      pricePerWeek := body.pricePerWeek,
      status := StringOr(body.status, AVAILABLE),
      createdAt := createdAt)
  }

  /** Whatever `availableQty` the body carries, the created row is the same. */
  lemma AvailableQtyInBodyIgnored(id: string, body: ItemBody, claimed: Option<int>, createdAt: Instant)
    ensures NewItem(id, body.(availableQty := claimed), createdAt) == NewItem(id, body, createdAt)
  {
  }

  /** A new item with a non-negative quantity is within stock bounds. */
  lemma NewItemWithinStock(id: string, body: ItemBody, createdAt: Instant)
    requires body.quantity >= 0
    ensures 0 <= NewItem(id, body, createdAt).availableQty <= NewItem(id, body, createdAt).quantity
  {
  }

  /** `GET /api/inventory`: every item, newest first, for any signed-in user. */
  function Get(session: Session, items: seq<InventoryItem>): (r: Response<seq<InventoryItem>>)
    ensures r.Unauthorized? <==> session.None?
    ensures r.StatusCode() == (if session.None? then 401 else 200)
    ensures !r.ServerError?
    ensures r.Ok? ==> NewestFirst(r.body, ItemCreatedAt) && multiset(r.body) == multiset(items)
  {
    if session.None? then Unauthorized else Ok(SortNewestFirst(items, ItemCreatedAt))
  }

  /** `POST /api/inventory`: creates exactly one item, or nothing. */
  method Post(db: Database, session: Session, body: ItemBody, id: string, createdAt: Instant)
    returns (resp: Response<InventoryItem>)
    requires db.Valid()
    modifies db
    ensures db.Valid()
    ensures db.rentals == old(db.rentals) && db.payments == old(db.payments)
    ensures session.None? ==> resp == Unauthorized && db.items == old(db.items)
    ensures session.Some? && id in Ids(old(db.items), ItemId) ==> resp == ServerError && db.items == old(db.items)
    ensures session.Some? && id !in Ids(old(db.items), ItemId) ==>
      resp == Ok(NewItem(id, body, createdAt)) && db.items == old(db.items) + [NewItem(id, body, createdAt)]
  {
    if session.None? {
      return Unauthorized;
    }
    var item := NewItem(id, body, createdAt);
    var ok := db.CreateItem(item);
    if !ok {
      return ServerError;
    }
    resp := Ok(item);
  }
}
