/** The customers page: the search box over the customer list and the
    add/edit dialog with the request it sends to `/api/customers`. */
module CustomersPage {

  import opened Optional
  import opened Seqs
  import opened Text
  import opened Http
  import opened Entities
  import Calendar

  /** The search box keeps a customer when the lower-cased term occurs in
      the lower-cased name, when the term as typed occurs in the phone
      number, or when the customer has a non-empty email and the
      lower-cased term occurs in the lower-cased email. */
  predicate CustomerMatches(c: Customer, term: string) {
    || Contains(Lower(c.name), Lower(term))
    || Contains(c.phone, term)
    || (c.email.Some? && c.email.value != "" && Contains(Lower(c.email.value), Lower(term)))
  }

  /** `filteredCustomers`: the matching customers, in the order of the list. */
  function FilteredCustomers(customers: seq<Customer>, term: string): (r: seq<Customer>)
    ensures IsSubsequence(r, customers)
    ensures forall c :: c in r <==> c in customers && CustomerMatches(c, term)
  {
    FilterIsSubsequence(customers, c => CustomerMatches(c, term));
    Filter(customers, c => CustomerMatches(c, term))
  }

  /** An empty search box shows every customer. */
  lemma EmptyTermKeepsAll(customers: seq<Customer>)
    ensures FilteredCustomers(customers, "") == customers
  {
    forall c: Customer ensures CustomerMatches(c, "") {
      ContainsEmpty(Lower(c.name));
    }
    FilterAll(customers, c => CustomerMatches(c, ""));
  }

  /** A customer without an email is found only through the name or the phone. */
  lemma NoEmailMatchesNameOrPhone(customers: seq<Customer>, term: string, c: Customer)
    requires c in customers && (c.email.None? || c.email == Some(""))
    ensures c in FilteredCustomers(customers, term) <==>
      Contains(Lower(c.name), Lower(term)) || Contains(c.phone, term)
  {
  }

  /** The phone number is searched as typed: a phone "X" is found by the
      term "X" and not by "x", while a name "X" is found by both. */
  lemma PhoneSearchIsCaseSensitive(createdAt: Calendar.Instant)
    ensures var byPhone := Customer("c1", "", None, "X", None, createdAt);
      CustomerMatches(byPhone, "X") && !CustomerMatches(byPhone, "x")
    ensures var byName := Customer("c2", "X", None, "", None, createdAt);
      CustomerMatches(byName, "X") && CustomerMatches(byName, "x")
  {
    assert Lower("X") == "x" && Lower("x") == "x" && Lower("") == "";
    assert "X"[..1] == "X" && "X"[1..] == "";
    assert "x"[..1] == "x";
    assert !Contains("", "x");
    assert !Contains("X", "x");
  }

  /** The dialog's `formData`. */
  datatype CustomerForm = CustomerForm(name: string, email: string, phone: string, address: string)

  /** The form as the page first shows it and as `resetForm` leaves it. */
  const EMPTY_FORM := CustomerForm("", "", "", "")

  /** The dialog: its form, the customer being edited (none when adding), and whether it is shown. */
  datatype CustomerDialog = CustomerDialog(form: CustomerForm, editingCustomer: Option<Customer>, isOpen: bool)

  /** `resetForm`: four empty fields, editing nothing; the dialog stays as it was. */
  function ResetForm(dialog: CustomerDialog): (r: CustomerDialog)
    ensures r.form.name == r.form.email == r.form.phone == r.form.address == ""
    ensures r.editingCustomer.None? && r.isOpen == dialog.isOpen
  {
    CustomerDialog(EMPTY_FORM, None, dialog.isOpen)
  }

  /** `openEditDialog`: name and phone copied, an absent email or address shown as `""`. */
  function OpenEditDialog(c: Customer): (r: CustomerDialog)
    ensures r.editingCustomer == Some(c) && r.isOpen
    ensures r.form.name == c.name && r.form.phone == c.phone
    ensures r.form.email == (if c.email.Some? then c.email.value else "")
    ensures r.form.address == (if c.address.Some? then c.address.value else "")
  {
    CustomerDialog(CustomerForm(c.name, StringOr(c.email, ""), c.phone, StringOr(c.address, "")), Some(c), true)
  }

  /** `handleSubmit`: `PUT /api/customers/{id}` when a customer is being
      edited, `POST /api/customers` otherwise, with the form as the body. */
  function SubmitRequest(dialog: CustomerDialog): (r: Request<CustomerForm>)
    ensures dialog.editingCustomer.Some? ==> r.verb == "PUT" && r.url == "/api/customers/" + dialog.editingCustomer.value.id
    ensures dialog.editingCustomer.None? ==> r.verb == "POST" && r.url == "/api/customers"
    ensures r.body == dialog.form
  {
    match dialog.editingCustomer
    case Some(c) => Request("PUT", "/api/customers/" + c.id, dialog.form)
    case None => Request("POST", "/api/customers", dialog.form)
  }

  /** After a reset the dialog adds a new customer. */
  lemma ResetFormPosts(dialog: CustomerDialog)
    ensures SubmitRequest(ResetForm(dialog)) == Request("POST", "/api/customers", EMPTY_FORM)
  {
  }

  /** Editing a customer and saving without changes sends the customer back
      to its own URL; the email and address come back as `""` when absent. */
  lemma UnchangedEditResendsCustomer(c: Customer)
    ensures SubmitRequest(OpenEditDialog(c)) ==
      Request("PUT", "/api/customers/" + c.id, CustomerForm(c.name, c.email.GetOr(""), c.phone, c.address.GetOr("")))
  {
  }
}
