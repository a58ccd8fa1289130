/** The "New Rental" form: the client-side draft of a rental. The
    selectable items are those in stock; the draft lines are added,
    edited and removed one at a time, each line keeping
    `subtotal = quantity * pricePerUnit`; the total sent to the server is
    the sum of the subtotals. */
module NewRentalPage {

  import opened Optional
  import opened Seqs
  import opened Entities
  import opened Store
  import opened RentalsRoute

  /** A line of the draft (`RentalItem` in the form). */
  datatype DraftLine = DraftLine(itemId: string, itemName: string, quantity: int, pricePerUnit: Money, subtotal: Money)

  /** The edits the line inputs make: the item select, the quantity and
      price inputs, and any other field name, which changes nothing. */
  datatype Edit = ItemField(id: string) | QuantityField(n: int) | PriceField(p: Money) | OtherField(name: string)

  predicate LineConsistent(line: DraftLine) {
    line.subtotal == line.quantity * line.pricePerUnit
  }

  predicate AllConsistent(lines: seq<DraftLine>) {
    forall i :: 0 <= i < |lines| ==> LineConsistent(lines[i])
  }

  predicate InStock(item: InventoryItem) {
    item.availableQty > 0
  }

  /** The items `fetchItems` keeps from `GET /api/inventory`: those with
      `availableQty > 0`, in their original order. */
  function Selectable(fetched: seq<InventoryItem>): (r: seq<InventoryItem>)
    ensures forall x :: x in r <==> x in fetched && x.availableQty > 0
    ensures IsSubsequence(r, fetched)
  {
    FilterIsSubsequence(fetched, InStock);
    Filter(fetched, InStock)
  }

  /** The line `addRentalItem` appends for the first selectable item. */
  function NewLine(item: InventoryItem): DraftLine {
    DraftLine(item.id, item.name, 1, item.pricePerDay, item.pricePerDay)
  }

  /** `addRentalItem`: no change without selectable items, otherwise one
      more line, for the first selectable item, at quantity 1 and its
      daily price. */
  function AddLine(items: seq<InventoryItem>, lines: seq<DraftLine>): (r: seq<DraftLine>)
    ensures items == [] ==> r == lines
    ensures items != [] ==> |r| == |lines| + 1 && r[..|lines|] == lines
    ensures items != [] ==>
      var added := r[|lines|];
      && added.itemId == items[0].id && added.itemName == items[0].name
      && added.quantity == 1 && added.pricePerUnit == items[0].pricePerDay
      && LineConsistent(added)
  {
    if items == [] then lines else lines + [NewLine(items[0])]
  }

  /** One edit of `updateRentalItem` applied to a line. */
  function Edited(line: DraftLine, edit: Edit, items: seq<InventoryItem>): (r: DraftLine)
    ensures edit.QuantityField? ==>
      r.quantity == edit.n && r.pricePerUnit == line.pricePerUnit && r.itemId == line.itemId && LineConsistent(r)
    ensures edit.PriceField? ==>
      r.pricePerUnit == edit.p && r.quantity == line.quantity && r.itemId == line.itemId && LineConsistent(r)
    ensures edit.ItemField? && edit.id !in Ids(items, ItemId) ==> r == line
    ensures edit.ItemField? && edit.id in Ids(items, ItemId) ==>
      exists k :: 0 <= k < |items|
        && items[k].id == edit.id && (forall j :: 0 <= j < k ==> items[j].id != edit.id)
        && r == DraftLine(edit.id, items[k].name, line.quantity, items[k].pricePerDay, line.quantity * items[k].pricePerDay)
    ensures edit.OtherField? ==> r == line
    ensures LineConsistent(line) ==> LineConsistent(r)
  {
    match edit
    case ItemField(id) =>
      var k := IndexOfItem(items, id);
      if k.None? then line
      else
        var selected := items[k.value];
        DraftLine(id, selected.name, line.quantity, selected.pricePerDay, line.quantity * selected.pricePerDay)
    case QuantityField(n) => line.(quantity := n, subtotal := n * line.pricePerUnit)
    case PriceField(p) => line.(pricePerUnit := p, subtotal := line.quantity * p)
    case OtherField(_) => line
  }

  /** `getTotalAmount`: the sum of the lines' subtotals. */
  function TotalAmount(lines: seq<DraftLine>): Money {
    if lines == [] then 0 else lines[0].subtotal + TotalAmount(lines[1..])
  }

  /** The sum of quantity times unit price over the lines. */
  function ProductSum(lines: seq<DraftLine>): Money {
    if lines == [] then 0 else lines[0].quantity * lines[0].pricePerUnit + ProductSum(lines[1..])
  }

  /** The line as `handleSubmit` sends it (`itemName` is dropped). */
  function Submitted(line: DraftLine): RentalLine {
    RentalLine(line.itemId, line.quantity, line.pricePerUnit, line.subtotal)
  }

  function SubmittedLines(lines: seq<DraftLine>): (r: seq<RentalLine>)
    ensures |r| == |lines|
    ensures forall k :: 0 <= k < |r| ==> r[k] == Submitted(lines[k])
  {
    seq(|lines|, k requires 0 <= k < |lines| => Submitted(lines[k]))
  }

  /** The form's state. */
  class NewRentalForm {
    var items: seq<InventoryItem>
    var rentalItems: seq<DraftLine>
    var selectedCustomer: string
    var startDate: string
    var endDate: string
    var deposit: Money
    var notes: string

    /** The initial state of the page. */
    constructor ()
      ensures items == [] && rentalItems == []
      ensures selectedCustomer == "" && startDate == "" && endDate == "" && deposit == 0 && notes == ""
    {
      items, rentalItems := [], [];
      selectedCustomer, startDate, endDate, deposit, notes := "", "", "", 0, "";
    }

    /** `fetchItems`, given the listing the server returned. */
    method FetchItems(fetched: seq<InventoryItem>)
      modifies this`items
      ensures items == Selectable(fetched)
    {
      items := Selectable(fetched);
    }

    /** `addRentalItem`. */
    method AddRentalItem()
      modifies this`rentalItems
      ensures rentalItems == AddLine(items, old(rentalItems))
      ensures AllConsistent(old(rentalItems)) ==> AllConsistent(rentalItems)
    {
      if |items| == 0 {
        return;
      }
      var firstItem := items[0];
      rentalItems := rentalItems + [DraftLine(firstItem.id, firstItem.name, 1, firstItem.pricePerDay, firstItem.pricePerDay)];
    }

    /** `updateRentalItem(index, field, value)`: edits the line at `index`
        in place; the other lines and the number of lines stay. */
    method UpdateRentalItem(index: int, edit: Edit)
      requires 0 <= index < |rentalItems|
      modifies this`rentalItems
      ensures |rentalItems| == |old(rentalItems)|
      ensures rentalItems[index] == Edited(old(rentalItems)[index], edit, items)
      ensures forall j :: 0 <= j < |rentalItems| && j != index ==> rentalItems[j] == old(rentalItems)[j]
      ensures AllConsistent(old(rentalItems)) ==> AllConsistent(rentalItems)
    {
      var item := rentalItems[index];
      match edit {
        case ItemField(id) =>
          var k := IndexOfItem(items, id);
          if k.Some? {
            var selectedItem := items[k.value];
            item := item.(itemId := id);
            item := item.(itemName := selectedItem.name);
            item := item.(pricePerUnit := selectedItem.pricePerDay);
            item := item.(subtotal := item.quantity * selectedItem.pricePerDay);
          }
        case QuantityField(n) =>
          item := item.(quantity := n);
          item := item.(subtotal := item.quantity * item.pricePerUnit);
        case PriceField(p) =>
          item := item.(pricePerUnit := p);
          item := item.(subtotal := item.quantity * item.pricePerUnit);
        case OtherField(_) =>
      }
      rentalItems := rentalItems[index := item];
    }

    /** `removeRentalItem(index)`. */
    method RemoveRentalItem(index: int)
      modifies this`rentalItems
      ensures rentalItems == RemoveAt(old(rentalItems), index)
      ensures AllConsistent(old(rentalItems)) ==> AllConsistent(rentalItems)
    {
      rentalItems := RemoveAt(rentalItems, index);
    }

    /** The body `handleSubmit` posts to `/api/rentals`, or nothing when
        no customer is selected or the draft has no lines. */
    function HandleSubmit(): (r: Option<RentalBody>)
      reads this
      ensures r.None? <==> selectedCustomer == "" || rentalItems == []
      ensures r.Some? ==>
        && r.value.customerId == selectedCustomer
        && r.value.startDate == startDate && r.value.endDate == endDate
        && r.value.totalAmount == TotalAmount(rentalItems)
        && r.value.deposit == Some(deposit) && r.value.notes == Some(notes)
        && r.value.status.None?
        && r.value.items == SubmittedLines(rentalItems)
    {
      if selectedCustomer == "" then None
      else if |rentalItems| == 0 then None
      else Some(RentalBody(
        customerId := selectedCustomer,
        startDate := startDate,
        endDate := endDate,
        totalAmount := TotalAmount(rentalItems),
        deposit := Some(deposit),
        status := None,
        notes := Some(notes),
        items := SubmittedLines(rentalItems)))
    }
  }

  lemma {:induction false} TotalAppend(a: seq<DraftLine>, b: seq<DraftLine>)
    ensures TotalAmount(a + b) == TotalAmount(a) + TotalAmount(b)
  {
    if a == [] {
      assert a + b == b;
    } else {
      assert (a + b)[1..] == a[1..] + b;
      TotalAppend(a[1..], b);
    }
  }

  /** Adding a line adds the first selectable item's daily price to the total. */
  lemma TotalAfterAdd(items: seq<InventoryItem>, lines: seq<DraftLine>)
    ensures TotalAmount(AddLine(items, lines)) == TotalAmount(lines) + (if items == [] then 0 else items[0].pricePerDay)
  {
    if items != [] {
      TotalAppend(lines, [NewLine(items[0])]);
      assert TotalAmount([NewLine(items[0])]) == items[0].pricePerDay + TotalAmount([]);
    }
  }

  /** The total is the lines before `index`, the line at `index` and the lines after it. */
  lemma TotalAround(lines: seq<DraftLine>, index: int)
    requires 0 <= index < |lines|
    ensures TotalAmount(lines) == TotalAmount(lines[..index]) + lines[index].subtotal + TotalAmount(lines[index + 1..])
  {
    var rest := lines[index..];
    assert lines == lines[..index] + rest;
    TotalAppend(lines[..index], rest);
    assert rest[1..] == lines[index + 1..];
  }

  /** Replacing one line changes the total by the difference of the two subtotals. */
  lemma TotalAfterReplace(lines: seq<DraftLine>, index: int, line: DraftLine)
    requires 0 <= index < |lines|
    ensures TotalAmount(lines[index := line]) == TotalAmount(lines) - lines[index].subtotal + line.subtotal
  {
    var replaced := lines[index := line];
    TotalAround(lines, index);
    TotalAround(replaced, index);
    assert replaced[..index] == lines[..index];
    assert replaced[index + 1..] == lines[index + 1..];
  }

  /** Removing a line takes its subtotal off the total; an index out of range changes nothing. */
  lemma TotalAfterRemove(lines: seq<DraftLine>, index: int)
    ensures TotalAmount(RemoveAt(lines, index)) == TotalAmount(lines) - (if 0 <= index < |lines| then lines[index].subtotal else 0)
  {
    if 0 <= index < |lines| {
      TotalAround(lines, index);
      TotalAppend(lines[..index], lines[index + 1..]);
    }
  }

  /** Every line added, edited or kept by the editor is consistent, so
      the total equals the sum of quantity times unit price. */
  lemma {:induction false} TotalOfConsistent(lines: seq<DraftLine>)
    requires AllConsistent(lines)
    ensures TotalAmount(lines) == ProductSum(lines)
  {
    if lines != [] {
      assert LineConsistent(lines[0]);
      TotalOfConsistent(lines[1..]);
    }
  }

  /** The lines the server stores carry the same subtotals as the draft. */
  lemma {:induction false} SubtotalsSubmitted(lines: seq<DraftLine>)
    ensures SubtotalSum(SubmittedLines(lines)) == TotalAmount(lines)
  {
    if lines != [] {
      SubtotalsSubmitted(lines[1..]);
      assert SubmittedLines(lines)[1..] == SubmittedLines(lines[1..]);
    }
  }

  /** A submitted draft is stored as a `PENDING` rental with the form's
      deposit, whose total is the sum of its lines' subtotals. */
  lemma SubmittedDraftStored(form: NewRentalForm, id: string, caller: Http.User, nowMillis: nat, createdAt: Calendar.Instant)
    requires form.HandleSubmit().Some?
    ensures var rental := NewRental(id, form.HandleSubmit().value, caller, nowMillis, createdAt);
      && rental.status == PENDING
      && rental.deposit == form.deposit
      && rental.customerId == form.selectedCustomer
      && rental.totalAmount == SubtotalSum(rental.lines) == TotalAmount(form.rentalItems)
  {
    SubtotalsSubmitted(form.rentalItems);
  }
}
