// lib/invoice-manager.ts, class `InvoiceManager`: the `invoices`, `invoice_items` and
// `invoice_digital_content` tables of the funnel database, the invoice life cycle
// (draft, sent, viewed, paid, overdue, cancelled), the checkout without Stripe, the admin list
// and the dashboard statistics. Money is an exact `real`; clocks and random values are inputs.

module Invoices {
  import opened Wrappers
  import opened Text
  import opened FunnelDb
  import StatusManagement

  datatype InvoiceStatus = Draft | Sent | Viewed | Paid | Overdue | Cancelled

  /** An `invoices` row; the nullable columns are options. */
  datatype Invoice = Invoice(
    number: string,
    leadId: int,
    email: string,
    status: InvoiceStatus,
    total: real,
    currency: string,
    dueDate: Option<string>,
    invoiceDate: string,
    notes: Option<string>,
    createdBy: Option<int>,
    imageUrl: Option<string>,
    imageFilename: Option<string>,
    imageUploadedAt: Option<string>,
    postPaymentContent: Option<string>,
    contentEnabled: bool,
    accessToken: Option<string>,
    paymentIntentId: Option<string>,
    stripeInvoiceId: Option<string>,
    paidAt: Option<string>,
    viewedAt: Option<string>,
    sentAt: Option<string>)

  /** An item as the caller passes it, with its total already computed. */
  datatype ItemInput = ItemInput(productId: Option<int>, description: string, quantity: real, unitPrice: real,
                                 totalPrice: real)

  /** An `invoice_items` row. */
  datatype ItemRow = ItemRow(invoiceId: int, productId: Option<int>, description: string, quantity: real,
                             unitPrice: real, totalPrice: real)

  datatype ContentKind = FileContent | LinkContent | TextContent | CourseAccess

  /** A digital content entry as the caller passes it. */
  datatype ContentInput = ContentInput(
    kind: ContentKind,
    title: string,
    description: Option<string>,
    url: Option<string>,
    filename: Option<string>,
    instructions: Option<string>,
    downloadable: bool,
    downloadLimit: int,
    expiryDays: int)

  /** An `invoice_digital_content` row. */
  datatype ContentRow = ContentRow(invoiceId: int, content: ContentInput)

  /** The argument of `createInvoice`; an absent `post_payment_content_enabled` is false. */
  datatype InvoiceInput = InvoiceInput(
    leadId: int,
    email: string,
    total: real,
    currency: Option<string>,
    dueDate: Option<string>,
    invoiceDate: Option<string>,
    notes: Option<string>,
    createdBy: Option<int>,
    imageUrl: Option<string>,
    imageFilename: Option<string>,
    postPaymentContent: Option<string>,
    contentEnabled: bool,
    items: seq<ItemInput>,
    digital: seq<ContentInput>)

  predicate HasInvoice(invoices: seq<Invoice>, id: int)
  {
    1 <= id <= |invoices|
  }

  /** `n || null` for a number: zero is stored as null. */
  function NumberOrNull(v: Option<int>): (r: Option<int>)
    ensures r.Some? <==> v.Some? && v.value != 0
    ensures r.Some? ==> r == v
  {
    if v == Some(0) then None else v
  }

  // ---- invoice numbers ----

  /** `Math.floor(Math.random() * 1000)`. */
  function RandomPart(roll: real): (n: nat)
    requires 0.0 <= roll < 1.0
    ensures n < 1000
  {
    (roll * 1000.0).Floor
  }

  /** `generateInvoiceNumber`: "INV-", the millisecond clock, "-", three zero-padded digits. */
  function InvoiceNumber(clock: nat, roll: real): string
    requires 0.0 <= roll < 1.0
  {
    NumberOf(clock, RandomPart(roll))
  }

  function NumberOf(clock: nat, n: nat): string
  {
    "INV-" + NatToString(clock) + "-" + PadStart(NatToString(n), 3, '0')
  }

  lemma ShortNumeral(n: nat)
    requires n < 1000
    ensures |NatToString(n)| <= 3
  {
    if n >= 10 {
      assert NatToString(n) == NatToString(n / 10) + [DigitChar(n % 10)];
      if n / 10 >= 10 {
        assert NatToString(n / 10) == NatToString(n / 100) + [DigitChar((n / 10) % 10)];
      }
    }
  }

  /** The random part is always exactly three digits, with value `n`. */
  lemma ThreeDigits(n: nat)
    requires n < 1000
    ensures var p := PadStart(NatToString(n), 3, '0');
      |p| == 3 && AllDigits(p) && DigitsValue(p) == n
  {
    var d := NatToString(n);
    ShortNumeral(n);
    var p := PadStart(d, 3, '0');
    var z := p[..3 - |d|];
    assert p == z + d;
    LeadingZerosValue(z, d);
    NatToStringRoundTrip(n);
  }

  /**
   * An invoice number splits back into its parts: "INV-", the clock reading in decimal, a dash,
   * and exactly three digits whose value is the random part.
   */
  lemma InvoiceNumberParses(clock: nat, roll: real)
    requires 0.0 <= roll < 1.0
    ensures var s := InvoiceNumber(clock, roll);
      var c := NatToString(clock);
      |s| == 4 + |c| + 4 && s[..4] == "INV-" && s[4..4 + |c|] == c && s[4 + |c|] == '-'
      && AllDigits(c) && DigitsValue(c) == clock
      && AllDigits(s[|s| - 3..]) && DigitsValue(s[|s| - 3..]) == RandomPart(roll)
  {
    NumberOfParses(clock, RandomPart(roll));
  }

  lemma NumberOfParses(clock: nat, n: nat)
    requires n < 1000
    ensures var s := NumberOf(clock, n);
      var c := NatToString(clock);
      |s| == 4 + |c| + 4 && s[..4] == "INV-" && s[4..4 + |c|] == c && s[4 + |c|] == '-'
      && AllDigits(c) && DigitsValue(c) == clock
      && AllDigits(s[|s| - 3..]) && DigitsValue(s[|s| - 3..]) == n
  {
    NumberOfLayout(clock, n);
    NumberOfSuffix(clock, n);
    NatToStringRoundTrip(clock);
  }

  lemma NumberOfLayout(clock: nat, n: nat)
    requires n < 1000
    ensures var s := NumberOf(clock, n);
      var c := NatToString(clock);
      |s| == 4 + |c| + 4 && s[..4] == "INV-" && s[4..4 + |c|] == c && s[4 + |c|] == '-'
  {
    ShortNumeral(n);
    Layout(NatToString(clock), PadStart(NatToString(n), 3, '0'));
  }

  lemma Layout(c: string, p: string)
    requires |p| == 3
    ensures var s := "INV-" + c + "-" + p;
      |s| == 4 + |c| + 4 && s[..4] == "INV-" && s[4..4 + |c|] == c && s[4 + |c|] == '-'
  {
    var s := "INV-" + c + "-" + p;
    assert s[..4] == "INV-";
    assert s[4..4 + |c|] == c;
  }

  lemma NumberOfSuffix(clock: nat, n: nat)
    requires n < 1000
    ensures var s := NumberOf(clock, n);
      |s| >= 3 && AllDigits(s[|s| - 3..]) && DigitsValue(s[|s| - 3..]) == n
  {
    var p := PadStart(NatToString(n), 3, '0');
    ThreeDigits(n);
    var s := NumberOf(clock, n);
    assert s == ("INV-" + NatToString(clock) + "-") + p;
    assert s[|s| - 3..] == p;
  }

  // ---- creating an invoice ----

  /**
   * The row `createInvoice` inserts: status draft, currency "USD" unless given, the access token
   * only with post-payment content, and the upload time only with an image.
   */
  function NewInvoiceRow(d: InvoiceInput, number: string, today: string, now: string, tokenHex: string): (inv: Invoice)
    ensures inv.status == Draft && inv.number == number
    ensures inv.leadId == d.leadId && inv.email == d.email && inv.total == d.total
    ensures inv.currency == (if Truthy(d.currency) then d.currency.value else "USD")
    ensures inv.accessToken.Some? <==> d.contentEnabled
    ensures inv.imageUrl.Some? <==> Truthy(d.imageUrl)
    ensures inv.imageUploadedAt.Some? <==> inv.imageUrl.Some?
    ensures inv.paidAt.None? && inv.viewedAt.None? && inv.sentAt.None?
  {
    Invoice(
      number, d.leadId, d.email, Draft, d.total,
      if Truthy(d.currency) then d.currency.value else "USD",
      OrNull(d.dueDate),
      if Truthy(d.invoiceDate) then d.invoiceDate.value else today,
      OrNull(d.notes), NumberOrNull(d.createdBy), OrNull(d.imageUrl), OrNull(d.imageFilename),
      if Truthy(d.imageUrl) then Some(now) else None,
      OrNull(d.postPaymentContent), d.contentEnabled,
      if d.contentEnabled then Some(tokenHex) else None,
      None, None, None, None, None)
  }

  function ItemRowFor(id: int, item: ItemInput): ItemRow
  {
    ItemRow(id, NumberOrNull(item.productId), item.description, item.quantity, item.unitPrice, item.totalPrice)
  }

  /** The item rows of a new invoice, one per input item, in order. */
  function ItemRows(id: int, items: seq<ItemInput>): (r: seq<ItemRow>)
    ensures |r| == |items|
    ensures forall k :: 0 <= k < |items| ==> r[k] == ItemRowFor(id, items[k])
  {
    if |items| == 0 then [] else ItemRows(id, items[..|items| - 1]) + [ItemRowFor(id, items[|items| - 1])]
  }

  function ContentRowFor(id: int, c: ContentInput): ContentRow
  {
    ContentRow(id, c.(description := OrNull(c.description), url := OrNull(c.url), filename := OrNull(c.filename),
                      instructions := OrNull(c.instructions)))
  }

  function ContentRows(id: int, cs: seq<ContentInput>): (r: seq<ContentRow>)
    ensures |r| == |cs|
    ensures forall k :: 0 <= k < |cs| ==> r[k] == ContentRowFor(id, cs[k])
  {
    if |cs| == 0 then [] else ContentRows(id, cs[..|cs| - 1]) + [ContentRowFor(id, cs[|cs| - 1])]
  }

  /** The rows of `invoice_items` that belong to one invoice, in insertion order. */
  function ItemsOf(items: seq<ItemRow>, id: int): (r: seq<ItemRow>)
    ensures |r| <= |items|
    ensures forall k :: 0 <= k < |r| ==> r[k].invoiceId == id && r[k] in items
    ensures forall x :: x in items && x.invoiceId == id ==> x in r
  {
    if |items| == 0 then []
    else
      var last := items[|items| - 1];
      ItemsOf(items[..|items| - 1], id) + (if last.invoiceId == id then [last] else [])
  }

  lemma {:induction false} ItemsOfAppend(a: seq<ItemRow>, b: seq<ItemRow>, id: int)
    ensures ItemsOf(a + b, id) == ItemsOf(a, id) + ItemsOf(b, id)
    decreases |b|
  {
    if |b| > 0 {
      assert (a + b)[..|a + b| - 1] == a + b[..|b| - 1];
      ItemsOfAppend(a, b[..|b| - 1], id);
    } else {
      assert a + b == a;
    }
  }

  lemma {:induction false} ItemsOfNewRows(id: int, items: seq<ItemInput>)
    ensures ItemsOf(ItemRows(id, items), id) == ItemRows(id, items)
    decreases |items|
  {
    if |items| > 0 {
      var r := ItemRows(id, items);
      assert r[..|r| - 1] == ItemRows(id, items[..|items| - 1]);
      ItemsOfNewRows(id, items[..|items| - 1]);
    }
  }

  lemma ItemsOfNone(items: seq<ItemRow>, id: int)
    requires forall k :: 0 <= k < |items| ==> items[k].invoiceId != id
    ensures ItemsOf(items, id) == []
  {
  }

  /** Reading a new invoice back yields exactly the item rows just inserted, in order. */
  lemma ReadBack(before: seq<ItemRow>, id: int, xs: seq<ItemInput>)
    requires forall k :: 0 <= k < |before| ==> before[k].invoiceId < id
    ensures ItemsOf(before + ItemRows(id, xs), id) == ItemRows(id, xs)
  {
    ItemsOfAppend(before, ItemRows(id, xs), id);
    ItemsOfNone(before, id);
    ItemsOfNewRows(id, xs);
  }

  /** The result of `createInvoice`: the new row's id and number, or the database's message. */
  datatype CreateOutcome = Created(id: nat, number: string) | CreateFailed(error: string)

  /** An invoice as `getInvoiceById` returns it: the row with its items and digital content. */
  datatype InvoiceView = InvoiceView(id: nat, invoice: Invoice, items: seq<ItemRow>, content: seq<ContentRow>)

  function ContentOf(content: seq<ContentRow>, id: int): (r: seq<ContentRow>)
    ensures forall k :: 0 <= k < |r| ==> r[k].invoiceId == id
  {
    if |content| == 0 then []
    else
      var last := content[|content| - 1];
      ContentOf(content[..|content| - 1], id) + (if last.invoiceId == id then [last] else [])
  }

  /** The invoice tables. */
  class InvoiceStore {
    var invoices: seq<Invoice>
    var items: seq<ItemRow>
    var content: seq<ContentRow>

    /** Every item and content row points at an existing invoice. */
    predicate Valid()
      reads this
    {
      (forall k :: 0 <= k < |items| ==> HasInvoice(invoices, items[k].invoiceId))
      && (forall k :: 0 <= k < |content| ==> HasInvoice(invoices, content[k].invoiceId))
    }

    constructor()
      ensures invoices == [] && items == [] && content == []
      ensures Valid()
    {
      invoices := [];
      items := [];
      content := [];
    }

    /** `getInvoiceById`: the row with its items and digital content, or nothing. */
    function GetInvoiceById(id: int): (r: Option<InvoiceView>)
      reads this
      ensures r.Some? <==> HasInvoice(invoices, id)
      ensures r.Some? ==> r.value.invoice == invoices[id - 1]
      ensures r.Some? ==> forall k :: 0 <= k < |r.value.items| ==> r.value.items[k].invoiceId == id
    {
      if HasInvoice(invoices, id) then Some(InvoiceView(id, invoices[id - 1], ItemsOf(items, id), ContentOf(content, id)))
      else None
    }

    /**
     * `createInvoice`: insert the invoice row, then one row per item and per digital content
     * entry under the new id. `failure` is the error the database raises, which leaves the
     * tables as they were.
     */
    method CreateInvoice(d: InvoiceInput, clock: nat, roll: real, tokenHex: string, today: string, now: string,
                         failure: Option<string>) returns (r: CreateOutcome)
      requires 0.0 <= roll < 1.0
      requires Valid()
      modifies this
      ensures Valid()
      ensures failure.None? ==>
        (r.Created? && GetInvoiceById(r.id).Some? && GetInvoiceById(r.id).value.items == ItemRows(r.id, d.items))
      ensures failure.Some? ==>
        (r == CreateFailed(failure.value)
         && invoices == old(invoices) && items == old(items) && content == old(content))
      ensures failure.None? ==>
        (var id := |old(invoices)| + 1;
         r == Created(id, InvoiceNumber(clock, roll))
         && invoices == old(invoices) + [NewInvoiceRow(d, InvoiceNumber(clock, roll), today, now, tokenHex)]
         && items == old(items) + ItemRows(id, d.items)
         && content == old(content) + ContentRows(id, d.digital))
    {
      if failure.Some? {
        return CreateFailed(failure.value);
      }
      var number := InvoiceNumber(clock, roll);
      invoices := invoices + [NewInvoiceRow(d, number, today, now, tokenHex)];
      var id := |invoices|;
      InsertLines(id, d.items, d.digital);
      ReadBack(old(items), id, d.items);
      return Created(id, number);
    }

    /** The two insert loops of `createInvoice`; the content loop only runs when there is content. */
    method InsertLines(id: int, xs: seq<ItemInput>, cs: seq<ContentInput>)
      requires Valid() && HasInvoice(invoices, id)
      modifies this
      ensures Valid()
      ensures items == old(items) + ItemRows(id, xs) && content == old(content) + ContentRows(id, cs)
      ensures invoices == old(invoices)
    {
      InsertItems(id, xs);
      if |cs| > 0 {
        InsertContent(id, cs);
      }
    }

    /** The item loop of `createInvoice`: one `invoice_items` row per item, in order. */
    method InsertItems(id: int, xs: seq<ItemInput>)
      requires Valid() && HasInvoice(invoices, id)
      modifies this
      ensures Valid()
      ensures items == old(items) + ItemRows(id, xs)
      ensures invoices == old(invoices) && content == old(content)
    {
      for i := 0 to |xs|
        invariant items == old(items) + ItemRows(id, xs[..i])
        invariant invoices == old(invoices) && content == old(content)
        invariant Valid()
      {
        assert xs[..i + 1][..i] == xs[..i];
        items := items + [ItemRowFor(id, xs[i])];
      }
      assert xs[..|xs|] == xs;
    }

    /** The digital content loop of `createInvoice`. */
    method InsertContent(id: int, cs: seq<ContentInput>)
      requires Valid() && HasInvoice(invoices, id)
      modifies this
      ensures Valid()
      ensures content == old(content) + ContentRows(id, cs)
      ensures invoices == old(invoices) && items == old(items)
    {
      for i := 0 to |cs|
        invariant content == old(content) + ContentRows(id, cs[..i])
        invariant invoices == old(invoices) && items == old(items)
        invariant Valid()
      {
        assert cs[..i + 1][..i] == cs[..i];
        content := content + [ContentRowFor(id, cs[i])];
      }
      assert cs[..|cs|] == cs;
    }

    /**
     * `updateInvoiceStatus`: the row changes in place; a paid invoice moves its lead to
     * paid_customer. `success` is false when the payment event of an unknown lead is refused.
     */
    method UpdateInvoiceStatus(db: Database, id: int, s: InvoiceStatus, x: StatusExtras) returns (success: bool)
      requires Valid()
      ensures Valid()
      modifies this, db
      ensures success <==> !PaymentRefused(old(invoices), id, s, old(db.leads))
      ensures invoices == SetStatus(old(invoices), id, s, x)
      ensures items == old(items) && content == old(content)
      ensures StatusManagement.Snapshot(db) == PaidEffect(old(invoices), id, s, old(StatusManagement.Snapshot(db)))
      ensures db.appointments == old(db.appointments)
    {
      WriteStatus(id, s, x);
      success := true;
      if s == Paid {
        var found := GetInvoiceById(id);
        if found.Some? {
          var paid := found.value.invoice;
          success := StatusManagement.HandlePaymentCompleted(db, paid.leadId, paid.number, paid.total);
        }
      }
    }

    /** The `UPDATE invoices` of `updateInvoiceStatus`: the status and each optional column that is given. */
    method WriteStatus(id: int, s: InvoiceStatus, x: StatusExtras)
      requires Valid()
      modifies this
      ensures Valid()
      ensures invoices == SetStatus(old(invoices), id, s, x)
      ensures items == old(items) && content == old(content)
    {
      if HasInvoice(invoices, id) {
        var inv := invoices[id - 1].(status := s);
        if Truthy(x.paymentIntentId) {
          inv := inv.(paymentIntentId := x.paymentIntentId);
        }
        if Truthy(x.stripeInvoiceId) {
          inv := inv.(stripeInvoiceId := x.stripeInvoiceId);
        }
        if Truthy(x.paidAt) {
          inv := inv.(paidAt := x.paidAt);
        }
        if Truthy(x.viewedAt) {
          inv := inv.(viewedAt := x.viewedAt);
        }
        if Truthy(x.sentAt) {
          inv := inv.(sentAt := x.sentAt);
        }
        invoices := invoices[id - 1 := inv];
      }
    }

    /** `markInvoiceViewed`: only a sent invoice becomes viewed. */
    method MarkInvoiceViewed(db: Database, id: int, now: string)
      requires Valid()
      ensures Valid()
      modifies this, db
      ensures invoices == MarkViewed(old(invoices), id, now)
      ensures items == old(items) && content == old(content)
      ensures db.leads == old(db.leads) && db.history == old(db.history) && db.events == old(db.events)
      ensures db.appointments == old(db.appointments)
    {
      var found := GetInvoiceById(id);
      if found.Some? && found.value.invoice.status == Sent {
        var _ := UpdateInvoiceStatus(db, id, Viewed, OnlyViewedAt(now));
      }
    }

    /**
     * `createStripeCheckoutSession` when Stripe is not configured: the invoice is marked sent
     * and a demo link to its page is returned as success. The invoice e-mail is left out.
     */
    method CheckoutWithoutStripe(db: Database, id: int, baseUrl: Option<string>, now: string) returns (r: CheckoutReply)
      requires Valid()
      ensures Valid()
      modifies this, db
      ensures !HasInvoice(old(invoices), id) ==>
        (r == CheckoutReply(false, None, "Invoice not found") && invoices == old(invoices))
      ensures HasInvoice(old(invoices), id) ==>
        (r == CheckoutReply(true, Some(DemoUrl(baseUrl, old(invoices)[id - 1].number)), DemoNotice)
         && invoices == SetStatus(old(invoices), id, Sent, OnlySentAt(now)))
      ensures items == old(items) && content == old(content)
      ensures db.leads == old(db.leads) && db.history == old(db.history) && db.events == old(db.events)
      ensures db.appointments == old(db.appointments)
    {
      var found := GetInvoiceById(id);
      if found.None? {
        return CheckoutReply(false, None, "Invoice not found");
      }
      var number := found.value.invoice.number;
      var _ := UpdateInvoiceStatus(db, id, Sent, OnlySentAt(now));
      return CheckoutReply(true, Some(DemoUrl(baseUrl, number)), DemoNotice);
    }

    /** `getInvoiceStats`. */
    function GetInvoiceStats(): (r: InvoiceStats)
      reads this
      ensures r.totalInvoices == |invoices|
      ensures r.paidInvoices == CountStatus(invoices, Paid)
      ensures r.pendingInvoices == CountStatus(invoices, Sent) + CountStatus(invoices, Viewed)
      ensures r.overdueInvoices == CountStatus(invoices, Overdue)
      ensures r.totalRevenue == Revenue(invoices)
    {
      Stats(invoices)
    }

    /**
     * `getInvoicesForAdmin` as written: the status filter is the unqualified `WHERE status = ?`,
     * which the count query over `invoices` resolves but the list query, joined with `leads`, does
     * not. A filtered call therefore fails after the count; an unfiltered one lists as intended.
     */
    method GetInvoicesForAdmin(db: Database, f: AdminFilter) returns (r: AdminListing)
      ensures f.status.Some? ==> r == ListFailed("ambiguous column name: status")
      ensures f.status.None? ==>
        (var page := AdminPage(invoices, f);
         r.Listed? && r.total == |NewestFirst(invoices, None)| && |r.list| == |page|
         && (forall k :: 0 <= k < |r.list| ==> r.list[k] == AdminView(invoices, items, db.leads, page[k]))
         && (forall k, l :: 0 <= k < l < |r.list| ==> r.list[k].id > r.list[l].id)
         && (f.limit.Some? && f.limit.value != 0 ==> |r.list| <= f.limit.value)
         && (f.limit.None? || f.limit.value == 0 ==> |r.list| == r.total))
    {
      if f.status.Some? {
        CountResolvesListDoesNot();
        if !Resolves("status", ListQueryTables) {
          return ListFailed("ambiguous column name: status");
        }
      }
      var list, total := GetInvoicesForAdminQualified(db, f);
      return Listed(list, total);
    }

    /**
     * `getInvoicesForAdmin` with the filter qualified as `i.status = ?`: the matching invoices
     * newest first, one page of them when a limit is given, each with its lead's name and its
     * items; `total` counts every match.
     */
    method GetInvoicesForAdminQualified(db: Database, f: AdminFilter) returns (list: seq<AdminInvoice>, total: nat)
      ensures var page := AdminPage(invoices, f);
        total == |NewestFirst(invoices, f.status)| && |list| == |page|
        && (forall k :: 0 <= k < |list| ==> list[k] == AdminView(invoices, items, db.leads, page[k]))
      ensures forall k :: 0 <= k < |list| ==> Matches(list[k].invoice, f.status)
      ensures forall k, l :: 0 <= k < l < |list| ==> list[k].id > list[l].id
      ensures f.limit.Some? && f.limit.value != 0 ==> |list| <= f.limit.value
      ensures (f.limit.None? || f.limit.value == 0) ==> |list| == total
    {
      total := |NewestFirst(invoices, f.status)|;
      var page := AdminPage(invoices, f);
      list := ViewsOf(db, page);
      ListedInOrder(invoices, items, db.leads, f.status, page, list);
    }

    /** The per-row mapping of `getInvoicesForAdmin`: each listed id with its lead's name and items. */
    method ViewsOf(db: Database, page: seq<nat>) returns (list: seq<AdminInvoice>)
      requires forall k :: 0 <= k < |page| ==> HasInvoice(invoices, page[k])
      ensures |list| == |page|
      ensures forall k :: 0 <= k < |list| ==> list[k] == AdminView(invoices, items, db.leads, page[k])
    {
      list := [];
      for j := 0 to |page|
        invariant |list| == j
        invariant forall k :: 0 <= k < j ==> list[k] == AdminView(invoices, items, db.leads, page[k])
      {
        list := list + [AdminView(invoices, items, db.leads, page[j])];
      }
    }
  }

  // ---- status updates ----

  /** The optional columns `updateInvoiceStatus` may write. */
  datatype StatusExtras = StatusExtras(
    paymentIntentId: Option<string>,
    stripeInvoiceId: Option<string>,
    paidAt: Option<string>,
    viewedAt: Option<string>,
    sentAt: Option<string>)

  function OnlyViewedAt(now: string): StatusExtras
  {
    StatusExtras(None, None, None, Some(now), None)
  }

  function OnlySentAt(now: string): StatusExtras
  {
    StatusExtras(None, None, None, None, Some(now))
  }

  /** `a || b` for an optional column: a given, non-empty value replaces the stored one. */
  function Overwrite(stored: Option<string>, given: Option<string>): (r: Option<string>)
    ensures Truthy(given) ==> r == given
    ensures !Truthy(given) ==> r == stored
  {
    if Truthy(given) then given else stored
  }

  /** One row after `UPDATE invoices SET status = ?, …`. */
  function WithStatus(inv: Invoice, s: InvoiceStatus, x: StatusExtras): Invoice
  {
    inv.(status := s,
         paymentIntentId := Overwrite(inv.paymentIntentId, x.paymentIntentId),
         stripeInvoiceId := Overwrite(inv.stripeInvoiceId, x.stripeInvoiceId),
         paidAt := Overwrite(inv.paidAt, x.paidAt),
         viewedAt := Overwrite(inv.viewedAt, x.viewedAt),
         sentAt := Overwrite(inv.sentAt, x.sentAt))
  }

  /** The table after `updateInvoiceStatus`: an unknown id changes nothing. */
  function SetStatus(invoices: seq<Invoice>, id: int, s: InvoiceStatus, x: StatusExtras): seq<Invoice>
  {
    if HasInvoice(invoices, id) then invoices[id - 1 := WithStatus(invoices[id - 1], s, x)] else invoices
  }

  /** A paid, known invoice whose lead has no row: the payment event's insert fails. */
  predicate PaymentRefused(invoices: seq<Invoice>, id: int, s: InvoiceStatus, leads: seq<Lead>)
  {
    s == Paid && HasInvoice(invoices, id) && !HasLead(leads, invoices[id - 1].leadId)
  }

  /** The funnel side of `updateInvoiceStatus`: the payment transition for a paid, known invoice. */
  function PaidEffect(invoices: seq<Invoice>, id: int, s: InvoiceStatus, t: StatusManagement.Tables): StatusManagement.Tables
  {
    if s == Paid && HasInvoice(invoices, id)
    then StatusManagement.PaymentCompletedEvent(t, invoices[id - 1].leadId, invoices[id - 1].number)
    else t
  }

  /**
   * A status update sets the status, leaves number, lead, e-mail, amount, currency and content
   * alone, writes each optional column exactly when its value is given, and touches no other row.
   */
  lemma SetStatusEffect(invoices: seq<Invoice>, id: int, s: InvoiceStatus, x: StatusExtras)
    requires HasInvoice(invoices, id)
    ensures var r := SetStatus(invoices, id, s, x);
      var before := invoices[id - 1];
      var after := r[id - 1];
      |r| == |invoices|
      && (forall k :: 0 <= k < |r| && k != id - 1 ==> r[k] == invoices[k])
      && after.status == s
      && after.(status := before.status, paymentIntentId := before.paymentIntentId,
                stripeInvoiceId := before.stripeInvoiceId, paidAt := before.paidAt,
                viewedAt := before.viewedAt, sentAt := before.sentAt) == before
      && (after.paidAt == if Truthy(x.paidAt) then x.paidAt else before.paidAt)
      && (after.sentAt == if Truthy(x.sentAt) then x.sentAt else before.sentAt)
      && (after.viewedAt == if Truthy(x.viewedAt) then x.viewedAt else before.viewedAt)
  {
  }

  /** Marking an invoice paid moves a known lead to paid_customer and adds 200 points. */
  lemma PaymentPromotesLead(invoices: seq<Invoice>, id: int, t: StatusManagement.Tables)
    requires HasInvoice(invoices, id) && HasLead(t.leads, invoices[id - 1].leadId)
    ensures var lead := invoices[id - 1].leadId;
      var u := PaidEffect(invoices, id, Paid, t);
      u.leads[lead - 1].stage == PaidCustomer && u.leads[lead - 1].score == t.leads[lead - 1].score + 200
  {
    StatusManagement.PaymentWorth200(t, invoices[id - 1].leadId, invoices[id - 1].number);
  }

  /** Any other status leaves the funnel tables alone. */
  lemma UnpaidLeavesFunnel(invoices: seq<Invoice>, id: int, s: InvoiceStatus, t: StatusManagement.Tables)
    requires s != Paid
    ensures PaidEffect(invoices, id, s, t) == t
  {
  }

  /** The table after `markInvoiceViewed`. */
  function MarkViewed(invoices: seq<Invoice>, id: int, now: string): (r: seq<Invoice>)
    ensures |r| == |invoices|
    ensures forall k :: 0 <= k < |r| ==>
      r[k].status == (if k == id - 1 && invoices[k].status == Sent then Viewed else invoices[k].status)
    ensures forall k :: 0 <= k < |r| && !(k == id - 1 && invoices[k].status == Sent) ==> r[k] == invoices[k]
  {
    if HasInvoice(invoices, id) && invoices[id - 1].status == Sent then SetStatus(invoices, id, Viewed, OnlyViewedAt(now))
    else invoices
  }

  // ---- checkout without Stripe ----

  datatype CheckoutReply = CheckoutReply(success: bool, sessionUrl: Option<string>, error: string)

  const DemoNotice: string :=
    "Stripe не настроен. Работаем в демо-режиме. "
      + "Для реальных платежей настройте "
      + "Stripe ключи в .env.local"

  /** A template literal renders an unset variable as "undefined". */
  function EnvText(v: Option<string>): string
  {
    if v.Some? then v.value else "undefined"
  }

  /** `${NEXT_PUBLIC_BASE_URL}/invoice/${invoice_number}?demo=true`. */
  function DemoUrl(baseUrl: Option<string>, number: string): (r: string)
    ensures r == EnvText(baseUrl) + "/invoice/" + number + "?demo=true"
  {
    EnvText(baseUrl) + "/invoice/" + number + "?demo=true"
  }

  /** The demo checkout does not look at the status: even a paid invoice goes back to sent. */
  lemma DemoCheckoutReopensPaid(invoices: seq<Invoice>, id: int, now: string)
    requires HasInvoice(invoices, id) && invoices[id - 1].status == Paid
    ensures SetStatus(invoices, id, Sent, OnlySentAt(now))[id - 1].status == Sent
    ensures SetStatus(invoices, id, Sent, OnlySentAt(now))[id - 1].paidAt == invoices[id - 1].paidAt
  {
  }

  // ---- statistics ----

  /** The figures of `getInvoiceStats`; a `SUM` over no rows is null, and `|| 0` makes it 0. */
  datatype InvoiceStats = InvoiceStats(totalInvoices: nat, totalRevenue: real, paidInvoices: nat,
                                       pendingInvoices: nat, overdueInvoices: nat)

  function CountStatus(invoices: seq<Invoice>, s: InvoiceStatus): (r: nat)
    ensures r <= |invoices|
  {
    if |invoices| == 0 then 0
    else CountStatus(invoices[..|invoices| - 1], s) + (if invoices[|invoices| - 1].status == s then 1 else 0)
  }

  /** `SUM(CASE WHEN status = 'paid' THEN total_amount ELSE 0 END)`. */
  function Revenue(invoices: seq<Invoice>): real
  {
    if |invoices| == 0 then 0.0
    else Revenue(invoices[..|invoices| - 1]) + (if invoices[|invoices| - 1].status == Paid then invoices[|invoices| - 1].total else 0.0)
  }

  function Stats(invoices: seq<Invoice>): InvoiceStats
  {
    InvoiceStats(|invoices|, Revenue(invoices), CountStatus(invoices, Paid),
                 CountStatus(invoices, Sent) + CountStatus(invoices, Viewed), CountStatus(invoices, Overdue))
  }

  /** The paid, pending and overdue counts, with drafts and cancelled ones, cover every invoice once. */
  lemma {:induction false} StatsPartition(invoices: seq<Invoice>)
    ensures var st := Stats(invoices);
      st.paidInvoices + st.pendingInvoices + st.overdueInvoices
        + CountStatus(invoices, Draft) + CountStatus(invoices, Cancelled) == st.totalInvoices
  {
    if |invoices| > 0 {
      StatsPartition(invoices[..|invoices| - 1]);
    }
  }

  /** Revenue is never negative while no invoice has a negative amount. */
  lemma {:induction false} RevenueNonNegative(invoices: seq<Invoice>)
    requires forall k :: 0 <= k < |invoices| ==> invoices[k].total >= 0.0
    ensures Revenue(invoices) >= 0.0
  {
    if |invoices| > 0 {
      RevenueNonNegative(invoices[..|invoices| - 1]);
    }
  }

  /**
   * Paying an invoice that was not yet paid adds exactly its amount to the revenue, and
   * the paid count by one.
   */
  lemma {:induction false} PaymentAddsRevenue(invoices: seq<Invoice>, id: int, x: StatusExtras)
    requires HasInvoice(invoices, id) && invoices[id - 1].status != Paid
    ensures Revenue(SetStatus(invoices, id, Paid, x)) == Revenue(invoices) + invoices[id - 1].total
    ensures CountStatus(SetStatus(invoices, id, Paid, x), Paid) == CountStatus(invoices, Paid) + 1
    decreases |invoices|
  {
    var r := SetStatus(invoices, id, Paid, x);
    var n := |invoices|;
    if id == n {
      assert r[..n - 1] == invoices[..n - 1];
    } else {
      assert r[..n - 1] == SetStatus(invoices[..n - 1], id, Paid, x);
      PaymentAddsRevenue(invoices[..n - 1], id, x);
    }
  }

  // ---- the admin list ----

  /** The columns of `invoices`, with those its migrations add. */
  const InvoiceColumns: set<string> :=
    {"id", "invoice_number", "lead_id", "email", "status", "total_amount", "currency", "due_date",
     "invoice_date", "stripe_payment_intent_id", "stripe_invoice_id", "notes", "pdf_path", "sent_at",
     "viewed_at", "paid_at", "created_by", "created_at", "updated_at", "image_url", "image_filename",
     "image_uploaded_at", "post_payment_content", "post_payment_content_enabled"}

  /** The columns of `leads`, with those its migrations add. */
  const LeadColumns: set<string> :=
    {"id", "name", "email", "phone", "website", "revenue", "sales_calls", "decision_maker", "platform",
     "text_messages", "status", "created_at", "updated_at", "funnel_stage", "engagement_score",
     "last_activity", "funnel_step", "is_subscribed"}

  /** The count query reads `invoices` alone; the list query joins `leads` to it. */
  const CountQueryTables: seq<set<string>> := [InvoiceColumns]
  const ListQueryTables: seq<set<string>> := [InvoiceColumns, LeadColumns]

  /** How many of the query's tables have a column of that name. */
  function Owners(column: string, tables: seq<set<string>>): (n: nat)
    ensures n <= |tables|
  {
    if tables == [] then 0
    else Owners(column, tables[..|tables| - 1]) + (if column in tables[|tables| - 1] then 1 else 0)
  }

  /** SQLite binds an unqualified column iff exactly one table of the query has it. */
  predicate Resolves(column: string, tables: seq<set<string>>)
  {
    Owners(column, tables) == 1
  }

  /** `status` names a column of `invoices` alone in the count query, and of both tables in the list query. */
  lemma CountResolvesListDoesNot()
    ensures Resolves("status", CountQueryTables)
    ensures !Resolves("status", ListQueryTables) && Owners("status", ListQueryTables) == 2
  {
    assert ListQueryTables[..1] == CountQueryTables;
  }

  /** The result of `getInvoicesForAdmin`: the listing, or the error its statement throws. */
  datatype AdminListing = Listed(list: seq<AdminInvoice>, total: nat) | ListFailed(error: string)

  /** `filters`: an optional status, and a page size and offset (zero means absent). */
  datatype AdminFilter = AdminFilter(status: Option<InvoiceStatus>, limit: Option<nat>, offset: Option<nat>)

  predicate Matches(inv: Invoice, status: Option<InvoiceStatus>)
  {
    status.None? || inv.status == status.value
  }

  /** Every id names an invoice that matches the status filter. */
  predicate AllMatch(invoices: seq<Invoice>, ids: seq<nat>, status: Option<InvoiceStatus>)
  {
    forall k :: 0 <= k < |ids| ==> HasInvoice(invoices, ids[k]) && Matches(invoices[ids[k] - 1], status)
  }

  /**
   * The ids of the matching invoices, `ORDER BY created_at DESC`: rows are inserted in
   * creation order, so the newest is the highest id.
   */
  function NewestFirst(invoices: seq<Invoice>, status: Option<InvoiceStatus>): (r: seq<nat>)
    ensures AllMatch(invoices, r, status)
    ensures Descending(r)
  {
    if |invoices| == 0 then []
    else
      var n := |invoices|;
      var rest := NewestFirst(invoices[..n - 1], status);
      (if Matches(invoices[n - 1], status) then [n] else []) + rest
  }

  /** Every matching invoice is listed. */
  lemma {:induction false} NewestFirstComplete(invoices: seq<Invoice>, status: Option<InvoiceStatus>)
    ensures forall id :: HasInvoice(invoices, id) && Matches(invoices[id - 1], status) ==> id in NewestFirst(invoices, status)
  {
    if |invoices| > 0 {
      var n := |invoices|;
      NewestFirstComplete(invoices[..n - 1], status);
      forall id | HasInvoice(invoices, id) && Matches(invoices[id - 1], status)
        ensures id in NewestFirst(invoices, status)
      {
        if id < n {
          assert invoices[..n - 1][id - 1] == invoices[id - 1];
        }
      }
    }
  }

  /** The ids `getInvoicesForAdmin` lists: one page of the matching invoices, newest first. */
  function AdminPage(invoices: seq<Invoice>, f: AdminFilter): (page: seq<nat>)
    ensures AllMatch(invoices, page, f.status)
    ensures Descending(page)
    ensures f.limit.Some? && f.limit.value != 0 ==> |page| <= f.limit.value
    ensures f.limit.None? || f.limit.value == 0 ==> |page| == |NewestFirst(invoices, f.status)|
  {
    var matching := NewestFirst(invoices, f.status);
    PageMatches(invoices, f.status, matching, f.limit, f.offset);
    PageOrder(matching, f.limit, f.offset);
    Page(matching, f.limit, f.offset)
  }

  /** Views of a newest-first page of matching ids are matching invoices with descending ids. */
  lemma ListedInOrder(invoices: seq<Invoice>, items: seq<ItemRow>, leads: seq<Lead>, status: Option<InvoiceStatus>,
                      page: seq<nat>, list: seq<AdminInvoice>)
    requires AllMatch(invoices, page, status)
    requires Descending(page)
    requires |list| == |page|
    requires forall k :: 0 <= k < |list| ==> list[k] == AdminView(invoices, items, leads, page[k])
    ensures forall k :: 0 <= k < |list| ==> Matches(list[k].invoice, status)
    ensures forall k, l :: 0 <= k < l < |list| ==> list[k].id > list[l].id
  {
    forall k | 0 <= k < |list|
      ensures Matches(list[k].invoice, status)
    {
      assert list[k].invoice == invoices[page[k] - 1];
    }
    forall k, l | 0 <= k < l < |list|
      ensures list[k].id > list[l].id
    {
      assert list[k].id == page[k] && list[l].id == page[l];
    }
  }

  predicate Descending(ids: seq<nat>)
  {
    forall k, l :: 0 <= k < l < |ids| ==> ids[k] > ids[l]
  }

  /**
   * The positions `LIMIT n [OFFSET m]` keeps, as a half-open range; the clause is added only
   * when a non-zero limit is given, so an offset alone is ignored.
   */
  function Window(n: nat, limit: Option<nat>, offset: Option<nat>): (w: (nat, nat))
    ensures w.0 <= w.1 <= n
    ensures limit.Some? && limit.value != 0 ==> w.1 - w.0 <= limit.value
    ensures limit.None? || limit.value == 0 ==> w == (0, n)
  {
    if limit.Some? && limit.value != 0 then
      var skip := if offset.Some? then offset.value else 0;
      var lo := if skip <= n then skip else n;
      (lo, if lo + limit.value <= n then lo + limit.value else n)
    else
      (0, n)
  }

  /** One page of the ids: a non-zero limit bounds it; without one every id is kept. */
  function Page(ids: seq<nat>, limit: Option<nat>, offset: Option<nat>): (r: seq<nat>)
    ensures limit.Some? && limit.value != 0 ==> |r| <= limit.value
    ensures limit.None? || limit.value == 0 ==> r == ids
  {
    var w := Window(|ids|, limit, offset);
    ids[w.0..w.1]
  }

  /** Position k of a page is position k past the window's start in the ids. */
  lemma PageAt(ids: seq<nat>, limit: Option<nat>, offset: Option<nat>, k: nat)
    requires k < |Page(ids, limit, offset)|
    ensures Window(|ids|, limit, offset).0 + k < |ids|
    ensures Page(ids, limit, offset)[k] == ids[Window(|ids|, limit, offset).0 + k]
  {
  }

  /** A page of newest-first ids is still newest first. */
  lemma PageOrder(ids: seq<nat>, limit: Option<nat>, offset: Option<nat>)
    requires Descending(ids)
    ensures Descending(Page(ids, limit, offset))
  {
    var page := Page(ids, limit, offset);
    forall k, l | 0 <= k < l < |page|
      ensures page[k] > page[l]
    {
      PageAt(ids, limit, offset, k);
      PageAt(ids, limit, offset, l);
    }
  }

  /** Every id on a page of matching invoices is a matching invoice. */
  lemma PageMatches(invoices: seq<Invoice>, status: Option<InvoiceStatus>, ids: seq<nat>, limit: Option<nat>, offset: Option<nat>)
    requires AllMatch(invoices, ids, status)
    ensures AllMatch(invoices, Page(ids, limit, offset), status)
  {
    var page := Page(ids, limit, offset);
    forall k | 0 <= k < |page|
      ensures HasInvoice(invoices, page[k]) && Matches(invoices[page[k] - 1], status)
    {
      PageAt(ids, limit, offset, k);
    }
  }

  /** A listed invoice with `lead_name` from the left join and its items. */
  datatype AdminInvoice = AdminInvoice(id: nat, invoice: Invoice, leadName: Option<string>, items: seq<ItemRow>)

  function AdminView(invoices: seq<Invoice>, items: seq<ItemRow>, leads: seq<Lead>, id: nat): (v: AdminInvoice)
    requires HasInvoice(invoices, id)
    ensures v.id == id && v.invoice == invoices[id - 1]
  {
    var inv := invoices[id - 1];
    AdminInvoice(id, inv, if HasLead(leads, inv.leadId) then Some(leads[inv.leadId - 1].name) else None, ItemsOf(items, id))
  }
}
