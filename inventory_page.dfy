/** The inventory page: the search box over the item list, the category
    and status badge colours, and the add/edit dialog with the request it
    sends to `/api/inventory`. */
module InventoryPage {

  import opened Optional
  import opened Seqs
  import opened Text
  import opened Calendar
  import opened Http
  import opened Entities
  import InventoryRoute

  /** The search box keeps an item when the lower-cased term occurs in its
      lower-cased name or in its lower-cased category. */
  predicate ItemMatches(item: InventoryItem, term: string) {
    Contains(Lower(item.name), Lower(term)) || Contains(Lower(item.category), Lower(term))
  }

  /** `filteredItems`: the matching items, in the order of the list. */
  function FilteredItems(items: seq<InventoryItem>, term: string): (r: seq<InventoryItem>)
    ensures IsSubsequence(r, items)
    ensures forall item :: item in r <==> item in items && ItemMatches(item, term)
  {
    FilterIsSubsequence(items, item => ItemMatches(item, term));
    Filter(items, item => ItemMatches(item, term))
  }

  /** An empty search box shows every item. */
  lemma EmptyTermKeepsAll(items: seq<InventoryItem>)
    ensures FilteredItems(items, "") == items
  {
    forall item: InventoryItem ensures ItemMatches(item, "") {
      ContainsEmpty(Lower(item.name));
    }
    FilterAll(items, item => ItemMatches(item, ""));
  }

  /** Lower-casing twice is lower-casing once. */
  lemma LowerIdempotent(s: string)
    ensures Lower(Lower(s)) == Lower(s)
  {
  }

  /** The search ignores the case of the term: typing it in capitals finds
      the same items. */
  lemma SearchIgnoresCase(items: seq<InventoryItem>, term: string)
    ensures FilteredItems(items, Lower(term)) == FilteredItems(items, term)
  {
    LowerIdempotent(term);
    FilterCongruent(items, item => ItemMatches(item, Lower(term)), item => ItemMatches(item, term));
  }

  /** A longer term never shows more: whatever matches `term + more` matches `term`. */
  lemma LongerTermNarrows(items: seq<InventoryItem>, term: string, more: string)
    ensures forall item :: item in FilteredItems(items, term + more) ==> item in FilteredItems(items, term)
  {
    forall item | item in FilteredItems(items, term + more) ensures ItemMatches(item, term) {
      LowerAppend(term, more);
      if Contains(Lower(item.name), Lower(term + more)) {
        ContainsPrefix(Lower(item.name), Lower(term), Lower(more));
      } else {
        ContainsPrefix(Lower(item.category), Lower(term), Lower(more));
      }
    }
  }

  lemma LowerAppend(a: string, b: string)
    ensures Lower(a + b) == Lower(a) + Lower(b)
  {
  }

  /** A string that contains `a + b` contains `a`. */
  lemma ContainsPrefix(hay: string, a: string, b: string)
    requires Contains(hay, a + b)
    ensures Contains(hay, a)
  {
    ContainsIffOccurs(hay, a + b);
    var i :| OccursAt(hay, a + b, i);
    assert hay[i..i + |a|] == (a + b)[..|a|] == a;
    assert OccursAt(hay, a, i);
    ContainsIffOccurs(hay, a);
  }

  const OTHER := "OTHER"

  /** The `colors` record of `getCategoryBadgeColor`. */
  const CATEGORY_COLORS: map<string, string> := map[
    "CANOPY" := "bg-blue-100 text-blue-800",
    "CHAIR" := "bg-green-100 text-green-800",
    "TABLE" := "bg-yellow-100 text-yellow-800",
    "DECORATION" := "bg-pink-100 text-pink-800",
    OTHER := "bg-gray-100 text-gray-800"]

  /** `colors[category] || colors.OTHER`. */
  function CategoryBadgeColor(category: string): (c: string)
    ensures category in CATEGORY_COLORS ==> c == CATEGORY_COLORS[category]
    ensures category !in CATEGORY_COLORS ==> c == CATEGORY_COLORS[OTHER]
  {
    if category in CATEGORY_COLORS && CATEGORY_COLORS[category] != "" then CATEGORY_COLORS[category]
    else CATEGORY_COLORS[OTHER]
  }

  /** An unknown category is shown like `OTHER`, and the five known
      categories have five different colours. */
  lemma CategoryColors(category: string, other: string)
    ensures category !in CATEGORY_COLORS ==> CategoryBadgeColor(category) == CategoryBadgeColor(OTHER)
    ensures category in CATEGORY_COLORS && other in CATEGORY_COLORS && category != other
      ==> CategoryBadgeColor(category) != CategoryBadgeColor(other)
  {
  }

  /** The `colors` record of `getStatusBadgeColor`. */
  const STATUS_COLORS: map<string, string> := map[
    AVAILABLE := "bg-green-100 text-green-800",
    "RENTED" := "bg-blue-100 text-blue-800",
    "MAINTENANCE" := "bg-yellow-100 text-yellow-800",
    "DAMAGED" := "bg-red-100 text-red-800"]

  /** `colors[status] || colors.AVAILABLE`. */
  function StatusBadgeColor(status: string): (c: string)
    ensures status in STATUS_COLORS ==> c == STATUS_COLORS[status]
    ensures status !in STATUS_COLORS ==> c == STATUS_COLORS[AVAILABLE]
  {
    if status in STATUS_COLORS && STATUS_COLORS[status] != "" then STATUS_COLORS[status]
    else STATUS_COLORS[AVAILABLE]
  }

  /** An unknown status is shown like `AVAILABLE`, and the four known
      statuses have four different colours. */
  lemma StatusColors(status: string, other: string)
    ensures status !in STATUS_COLORS ==> StatusBadgeColor(status) == StatusBadgeColor(AVAILABLE)
    ensures status in STATUS_COLORS && other in STATUS_COLORS && status != other
      ==> StatusBadgeColor(status) != StatusBadgeColor(other)
  {
  }

  /** The dialog's `formData`. */
  datatype ItemForm = ItemForm(
    name: string,
    category: string,
    description: string,
    quantity: int,
    availableQty: int,
    pricePerDay: Money,
    pricePerWeek: Money,
    status: string)

  /** The form as the page first shows it and as `resetForm` leaves it. */
  const EMPTY_FORM := ItemForm("", "CANOPY", "", 1, 1, 0, 0, AVAILABLE)

  /** The dialog: its form, the item being edited (none when adding), and whether it is shown. */
  datatype ItemDialog = ItemDialog(form: ItemForm, editingItem: Option<InventoryItem>, isOpen: bool)

  /** `resetForm`: the empty form, editing nothing; the dialog stays as it was. */
  function ResetForm(dialog: ItemDialog): (r: ItemDialog)
    ensures r.form.name == "" && r.form.description == "" && r.form.category == "CANOPY" && r.form.status == AVAILABLE
    ensures r.form.quantity == 1 && r.form.availableQty == 1 && r.form.pricePerDay == 0 && r.form.pricePerWeek == 0
    ensures r.editingItem.None? && r.isOpen == dialog.isOpen
  {
    ItemDialog(EMPTY_FORM, None, dialog.isOpen)
  }

  /** `openEditDialog`: the item copied into the form, an absent
      description as `""` and an absent or zero weekly price as 0. */
  function OpenEditDialog(item: InventoryItem): (r: ItemDialog)
    ensures r.editingItem == Some(item) && r.isOpen
    ensures r.form.name == item.name && r.form.category == item.category && r.form.status == item.status
    ensures r.form.quantity == item.quantity && r.form.availableQty == item.availableQty
    ensures r.form.pricePerDay == item.pricePerDay
    ensures r.form.description == (if item.description.Some? then item.description.value else "")
    ensures r.form.pricePerWeek == (if item.pricePerWeek.Some? then item.pricePerWeek.value else 0)
  {
    ItemDialog(
      ItemForm(
        name := item.name,
        category := item.category,
        description := StringOr(item.description, ""),
        quantity := item.quantity,
        availableQty := item.availableQty,
        pricePerDay := item.pricePerDay,
        pricePerWeek := NumberOrZero(item.pricePerWeek),
        status := item.status),
      Some(item),
      true)
  }

  /** `JSON.stringify(formData)` as the route reads it: every field is present. */
  function FormBody(form: ItemForm): InventoryRoute.ItemBody {
    InventoryRoute.ItemBody(
      name := form.name,
      category := form.category,
      description := Some(form.description),
      quantity := form.quantity,
      availableQty := Some(form.availableQty),
      pricePerDay := form.pricePerDay,
      pricePerWeek := Some(form.pricePerWeek),
      status := Some(form.status))
  }

  /** `handleSubmit`: `PUT /api/inventory/{id}` when an item is being edited,
      `POST /api/inventory` otherwise, with the form as the body. */
  function SubmitRequest(dialog: ItemDialog): (r: Request<InventoryRoute.ItemBody>)
    ensures dialog.editingItem.Some? ==> r.verb == "PUT" && r.url == "/api/inventory/" + dialog.editingItem.value.id
    ensures dialog.editingItem.None? ==> r.verb == "POST" && r.url == "/api/inventory"
    ensures r.body == FormBody(dialog.form)
  {
    match dialog.editingItem
    case Some(item) => Request("PUT", "/api/inventory/" + item.id, FormBody(dialog.form))
    case None => Request("POST", "/api/inventory", FormBody(dialog.form))
  }

  /** After a reset the dialog adds an item, and the item the route creates
      from the untouched form is one `CANOPY` unit, available, priced 0. */
  lemma ResetFormPostsDefaultItem(dialog: ItemDialog, id: string, createdAt: Instant)
    ensures var req := SubmitRequest(ResetForm(dialog));
      && req.verb == "POST" && req.url == "/api/inventory"
      && InventoryRoute.NewItem(id, req.body, createdAt) ==
         InventoryItem(id, "", "CANOPY", Some(""), 1, 1, 0, Some(0), AVAILABLE, createdAt)
  {
  }

  /** Whatever the form says about available units, a posted item starts
      with all of its units available; an empty status becomes `AVAILABLE`. */
  lemma PostedFormStartsFullyAvailable(form: ItemForm, id: string, createdAt: Instant)
    ensures var item := InventoryRoute.NewItem(id, SubmitRequest(ItemDialog(form, None, true)).body, createdAt);
      && item.availableQty == item.quantity == form.quantity
      && item.status == (if form.status == "" then AVAILABLE else form.status)
  {
  }

  /** Editing an item and saving without changes sends the item back to its
      own URL with the same fields, except that an absent description is
      sent as `""` and an absent weekly price as 0. */
  lemma UnchangedEditResendsItem(item: InventoryItem)
    ensures var req := SubmitRequest(OpenEditDialog(item));
      && req.verb == "PUT" && req.url == "/api/inventory/" + item.id
      && req.body.name == item.name && req.body.category == item.category
      && req.body.quantity == item.quantity && req.body.availableQty == Some(item.availableQty)
      && req.body.pricePerDay == item.pricePerDay && req.body.status == Some(item.status)
      && req.body.description == Some(item.description.GetOr(""))
      && req.body.pricePerWeek == Some(item.pricePerWeek.GetOr(0))
  {
  }
}
