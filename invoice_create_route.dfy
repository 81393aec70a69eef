// app/api/admin/invoices/create/route.ts: `POST` validates the request, prices each item,
// sums the invoice, creates it through the invoice manager and moves the lead to invoice_sent.

module InvoiceCreateRoute {
  import opened Wrappers
  import opened Text
  import opened FunnelDb
  import opened Invoices
  import StatusManagement

  /** A JavaScript number used as a condition: absent and zero are false. */
  predicate NumberTruthy(v: Option<real>)
  {
    v.Some? && v.value != 0.0
  }

  /** An item of the request body; any field may be missing. */
  datatype ItemRequest = ItemRequest(productId: Option<int>, description: Option<string>, quantity: Option<real>,
                                     unitPrice: Option<real>)

  /** The request body. */
  datatype CreateRequest = CreateRequest(
    leadId: Option<int>,
    email: Option<string>,
    dueDate: Option<string>,
    notes: Option<string>,
    currency: Option<string>,
    items: Option<seq<ItemRequest>>,
    imageUrl: Option<string>,
    imageFilename: Option<string>,
    postPaymentContent: Option<string>,
    contentEnabled: bool,
    digital: seq<ContentInput>)

  const MissingText := "Missing required fields: lead_id, email, and items are required"
  const ItemText := "Each item must have description, quantity, and unit_price"

  /** The first check: a falsy lead id or e-mail, or no items at all. */
  predicate MissingFields(req: CreateRequest)
  {
    req.leadId.None? || req.leadId.value == 0 || !Truthy(req.email) || req.items.None? || |req.items.value| == 0
  }

  /** The second check: every field must be truthy, so a zero quantity or price is refused. */
  predicate ValidItem(it: ItemRequest)
  {
    Truthy(it.description) && NumberTruthy(it.quantity) && NumberTruthy(it.unitPrice)
  }

  predicate AllValid(items: seq<ItemRequest>)
  {
    forall k :: 0 <= k < |items| ==> ValidItem(items[k])
  }

  /** The validation loop, which stops at the first bad item. */
  method ValidateItems(items: seq<ItemRequest>) returns (ok: bool)
    ensures ok <==> AllValid(items)
  {
    for i := 0 to |items|
      invariant forall k :: 0 <= k < i ==> ValidItem(items[k])
    {
      var it := items[i];
      if !Truthy(it.description) || !NumberTruthy(it.quantity) || !NumberTruthy(it.unitPrice) {
        return false;
      }
    }
    return true;
  }

  /** `total_price: item.quantity * item.unit_price`. */
  function Priced(it: ItemRequest): (r: ItemInput)
    requires ValidItem(it)
    ensures r.totalPrice == r.quantity * r.unitPrice
    ensures r.quantity == it.quantity.value && r.unitPrice == it.unitPrice.value
  {
    ItemInput(it.productId, it.description.value, it.quantity.value, it.unitPrice.value,
              it.quantity.value * it.unitPrice.value)
  }

  /** `itemsWithTotals`. */
  function WithTotals(items: seq<ItemRequest>): (r: seq<ItemInput>)
    requires AllValid(items)
    ensures |r| == |items|
    ensures forall k :: 0 <= k < |items| ==> r[k] == Priced(items[k])
  {
    seq(|items|, k requires 0 <= k < |items| && AllValid(items) => Priced(items[k]))
  }

  /** `reduce((sum, item) => sum + item.total_price, 0)`, folding from the left. */
  function Total(items: seq<ItemInput>): real
  {
    if |items| == 0 then 0.0 else Total(items[..|items| - 1]) + items[|items| - 1].totalPrice
  }

  /** The total splits over concatenation: each item contributes its own line total. */
  lemma {:induction false} TotalAppend(a: seq<ItemInput>, b: seq<ItemInput>)
    ensures Total(a + b) == Total(a) + Total(b)
    decreases |b|
  {
    if |b| == 0 {
      assert a + b == a;
    } else {
      assert (a + b)[..|a + b| - 1] == a + b[..|b| - 1];
      TotalAppend(a, b[..|b| - 1]);
    }
  }

  /** With positive quantities and prices the invoice total is positive. */
  lemma {:induction false} TotalPositive(items: seq<ItemRequest>)
    requires |items| > 0 && AllValid(items)
    requires forall k :: 0 <= k < |items| ==> items[k].quantity.value > 0.0 && items[k].unitPrice.value > 0.0
    ensures Total(WithTotals(items)) > 0.0
  {
    var n := |items|;
    var r := WithTotals(items);
    assert r[..n - 1] == WithTotals(items[..n - 1]);
    var q := items[n - 1].quantity.value;
    var p := items[n - 1].unitPrice.value;
    assert q * p > 0.0;
    if n > 1 {
      TotalPositive(items[..n - 1]);
    } else {
      assert r[..n - 1] == [];
    }
  }

  /**
   * Validation only refuses falsy values: a negative quantity passes and gives a negative
   * invoice total.
   */
  lemma NegativeQuantityAccepted(description: string, price: real)
    requires description != "" && price > 0.0
    ensures var items := [ItemRequest(None, Some(description), Some(-1.0), Some(price))];
      AllValid(items) && Total(WithTotals(items)) == -price
  {
    var items := [ItemRequest(None, Some(description), Some(-1.0), Some(price))];
    var r := WithTotals(items);
    assert r[..0] == [];
  }

  /** The argument passed to `createInvoice`: currency "USD" unless given, invoice date today, creator 1. */
  function InputFor(req: CreateRequest, today: string): (d: InvoiceInput)
    requires !MissingFields(req) && AllValid(req.items.value)
    ensures d.total == Total(WithTotals(req.items.value)) && d.leadId == req.leadId.value
    ensures d.currency == Some(if Truthy(req.currency) then req.currency.value else "USD")
  {
    InvoiceInput(req.leadId.value, req.email.value, Total(WithTotals(req.items.value)),
                 Some(if Truthy(req.currency) then req.currency.value else "USD"),
                 req.dueDate, Some(today), req.notes, Some(1), req.imageUrl, req.imageFilename,
                 req.postPaymentContent, req.contentEnabled, WithTotals(req.items.value), req.digital)
  }

  /** The JSON reply: the status, `success`, the message or error, and the created invoice. */
  datatype InvoiceReply = InvoiceReply(status: int, success: bool, text: string, invoice: Option<InvoiceView>)

  function Failure(status: int, text: string): InvoiceReply
  {
    InvoiceReply(status, false, text, None)
  }

  /**
   * `POST`: 500 when the body is not JSON, 400 for missing fields or a bad item, 500 when the
   * manager fails, otherwise the new draft invoice, and the lead moves to invoice_sent. When the
   * lead has no row the invoice_sent event is refused and the route answers 500, with the invoice
   * already written. Clock and random values are inputs; `failure` is the database error, if any.
   */
  method CreateInvoiceHandler(store: InvoiceStore, db: Database, bodyParses: bool, req: CreateRequest, clock: nat, roll: real,
                              tokenHex: string, today: string, now: string, failure: Option<string>)
    returns (r: InvoiceReply)
    requires 0.0 <= roll < 1.0 && store.Valid()
    modifies store, db
    ensures store.Valid()
    ensures !bodyParses ==>
      (r == Failure(500, "Failed to create invoice") && store.invoices == old(store.invoices)
       && store.items == old(store.items) && store.content == old(store.content))
    ensures bodyParses && MissingFields(req) ==>
      (r == Failure(400, MissingText) && store.invoices == old(store.invoices)
       && store.items == old(store.items) && store.content == old(store.content))
    ensures bodyParses && !MissingFields(req) && !AllValid(req.items.value) ==>
      (r == Failure(400, ItemText) && store.invoices == old(store.invoices)
       && store.items == old(store.items) && store.content == old(store.content))
    ensures bodyParses && !MissingFields(req) && AllValid(req.items.value) && failure.Some? ==>
      (r == Failure(500, failure.value) && store.invoices == old(store.invoices)
       && store.items == old(store.items) && store.content == old(store.content))
    ensures bodyParses && !MissingFields(req) && AllValid(req.items.value) && failure.None? ==>
      (var number := InvoiceNumber(clock, roll);
       var id := |old(store.invoices)| + 1;
       store.invoices == old(store.invoices) + [NewInvoiceRow(InputFor(req, today), number, today, now, tokenHex)]
       && store.items == old(store.items) + ItemRows(id, WithTotals(req.items.value))
       && store.content == old(store.content) + ContentRows(id, req.digital)
       && StatusManagement.Snapshot(db)
          == StatusManagement.InvoiceSentEvent(old(StatusManagement.Snapshot(db)), req.leadId.value, number))
    ensures bodyParses && !MissingFields(req) && AllValid(req.items.value) && failure.None?
            && HasLead(old(db.leads), req.leadId.value) ==>
      (var id := |old(store.invoices)| + 1;
       r.status == 200 && r.success && r.text == "Invoice created successfully"
       && r.invoice.Some? && r.invoice.value.id == id
       && r.invoice.value.items == ItemRows(id, WithTotals(req.items.value)))
    ensures bodyParses && !MissingFields(req) && AllValid(req.items.value) && failure.None?
            && !HasLead(old(db.leads), req.leadId.value) ==>
      r == Failure(500, "Failed to create invoice")
    ensures (!bodyParses || MissingFields(req) || !AllValid(req.items.value) || failure.Some?) ==>
      (db.leads == old(db.leads) && db.history == old(db.history) && db.events == old(db.events))
    ensures db.appointments == old(db.appointments)
  {
    if !bodyParses {
      return Failure(500, "Failed to create invoice");
    }
    if MissingFields(req) {
      return Failure(400, MissingText);
    }
    var ok := ValidateItems(req.items.value);
    if !ok {
      return Failure(400, ItemText);
    }
    var outcome := store.CreateInvoice(InputFor(req, today), clock, roll, tokenHex, today, now, failure);
    if outcome.CreateFailed? {
      return Failure(500, outcome.error);
    }
    var created := store.GetInvoiceById(outcome.id);
    if created.Some? {
      var sent := StatusManagement.HandleInvoiceSent(db, req.leadId.value, created.value.invoice.number);
      if !sent {
        // the rejected status update reaches the route's catch; the invoice rows stay written
        return Failure(500, "Failed to create invoice");
      }
    }
    return InvoiceReply(200, true, "Invoice created successfully", created);
  }
}
