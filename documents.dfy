/** The financial document engine shared by AR invoices and AP bills: number
    generation, tax, creation defaults, field-by-field updates, voiding,
    scoped lookup and filtered listing. A bill is an invoice with the `BIL`
    prefix and a vendor in place of the customer; the table's `kind` says
    which one it holds.

    Amounts are in minor units and rates in whole percent. Dates are
    timestamps; the calendar year of a document date (`getFullYear()`, which
    depends on the server's time zone) is given with the request. */
module Documents {
  import opened Common
  import opened Text
  import opened Numbering
  import opened Money
  import opened Pagination
  import opened Tenancy
  import opened Partners

  datatype Kind = Receivable | Payable

  /** `INV` for invoices, `BIL` for bills. */
  function Prefix(k: Kind): string {
    match k
    case Receivable => "INV"
    case Payable => "BIL"
  }

  /** The capitalised noun of the error messages. */
  function DocumentNoun(k: Kind): string {
    match k
    case Receivable => "Invoice"
    case Payable => "Bill"
  }

  /** The lower-case noun of the error messages. */
  function LowerNoun(k: Kind): string {
    match k
    case Receivable => "invoice"
    case Payable => "bill"
  }

  /** Invoices are issued to customers, bills received from vendors. */
  function PartnerKindOf(k: Kind): PartnerKind {
    match k
    case Receivable => Customers
    case Payable => Vendors
  }

  datatype Status = Draft | Issued | PartiallyPaid | Paid | Overdue | Void

  type Date = nat

  datatype Document = Document(
    companyId: CompanyId,
    number: string,
    partnerId: PartnerId,
    date: Date,
    dueDate: Date,
    subtotal: nat,
    taxAmount: nat,
    totalAmount: nat,
    paidAmount: nat,
    currency: string,
    status: Status,
    description: Option<string>,
    notes: Option<string>,
    createdBy: UserId)

  datatype PaymentMethod = BankTransfer | Check | Cash | CreditCard | Other

  /** A payment row: immutable once written. */
  datatype Payment = Payment(
    documentId: DocId,
    companyId: CompanyId,
    date: Date,
    amount: nat,
    paymentMethod: PaymentMethod,
    referenceNo: Option<string>,
    notes: Option<string>,
    createdBy: UserId)

  /** A create request; `year` is the calendar year of `date`. */
  datatype NewDocument = NewDocument(
    partnerId: PartnerId,
    date: Date,
    year: nat,
    dueDate: Date,
    subtotal: nat,
    currency: Option<string>,
    status: Option<Status>,
    description: Option<string>,
    notes: Option<string>)

  /** An update request. `None` means the key is absent (or, for the keys the
      service tests for truthiness, empty); `notes` may be set to null. */
  datatype Patch = Patch(
    partnerId: Option<PartnerId>,
    date: Option<Date>,
    dueDate: Option<Date>,
    subtotal: Option<nat>,
    status: Option<Status>,
    description: Option<string>,
    notes: Option<Option<string>>)

  /** The list query's filters and paging. */
  datatype DocumentQuery = DocumentQuery(
    status: Option<Status>,
    partnerId: Option<PartnerId>,
    fromDate: Option<Date>,
    toDate: Option<Date>,
    page: Option<string>,
    limit: Option<string>)

  /** A document with its payments, most recent payment date first. */
  datatype DocumentView = DocumentView(document: Document, payments: seq<Payment>)

  // ---- Numbering and amounts

  function NumberScheme(k: Kind, year: nat): Scheme {
    Yearly(Prefix(k), year)
  }

  /** The numbers of company c's documents that start with `PREFIX-year-`. */
  function NumbersInScope(docs: seq<Document>, c: CompanyId, sc: Scheme): (ns: seq<string>)
    ensures forall x :: x in ns <==>
      exists i :: 0 <= i < |docs| && docs[i].companyId == c && docs[i].number == x && StartsWith(x, Head(sc))
  {
    if |docs| == 0 then []
    else
      var init := NumbersInScope(docs[..|docs| - 1], c, sc);
      var last := docs[|docs| - 1];
      assert forall i :: 0 <= i < |docs| - 1 ==> docs[..|docs| - 1][i] == docs[i];
      if last.companyId == c && StartsWith(last.number, Head(sc)) then init + [last.number] else init
  }

  /** The number the next document of company c dated in `year` gets. */
  function NextDocumentNumber(k: Kind, docs: seq<Document>, c: CompanyId, year: nat): string {
    var sc := NumberScheme(k, year);
    Format(sc, NextNumber(sc, NumbersInScope(docs, c, sc)))
  }

  predicate NumberTaken(docs: seq<Document>, c: CompanyId, number: string) {
    exists i :: 0 <= i < |docs| && docs[i].companyId == c && docs[i].number == number
  }

  /** A document's amounts agree: `total_amount = subtotal + tax_amount`. */
  predicate AmountsAgree(d: Document) {
    d.totalAmount == d.subtotal + d.taxAmount
  }

  /** Documents of one company have distinct numbers (the unique constraint). */
  predicate UniqueNumbers(docs: seq<Document>) {
    forall i, j ::
      0 <= i < |docs| && 0 <= j < |docs| && docs[i].companyId == docs[j].companyId && docs[i].number == docs[j].number
      ==> i == j
  }

  /** The sum of the payments recorded against document id. */
  function PaidTo(payments: seq<Payment>, id: DocId): nat {
    if |payments| == 0 then 0
    else
      var p := payments[|payments| - 1];
      PaidTo(payments[..|payments| - 1], id) + (if p.documentId == id then p.amount else 0)
  }

  lemma PaidToAppend(payments: seq<Payment>, p: Payment, id: DocId)
    ensures PaidTo(payments + [p], id) == PaidTo(payments, id) + (if p.documentId == id then p.amount else 0)
  {
    assert (payments + [p])[..|payments|] == payments;
  }

  lemma {:induction false} PaidToNone(payments: seq<Payment>, id: DocId)
    requires forall p :: p in payments ==> p.documentId != id
    ensures PaidTo(payments, id) == 0
  {
    if |payments| > 0 {
      assert payments[|payments| - 1] in payments;
      PaidToNone(payments[..|payments| - 1], id);
    }
  }

  /** The ledger invariant over a document table and its payments. */
  predicate Ledger(docs: seq<Document>, payments: seq<Payment>) {
    && UniqueNumbers(docs)
    && (forall i :: 0 <= i < |docs| ==> AmountsAgree(docs[i]))
    && (forall p :: p in payments ==> p.documentId < |docs| && docs[p.documentId].companyId == p.companyId)
    && (forall i :: 0 <= i < |docs| ==> docs[i].paidAmount == PaidTo(payments, i))
  }

  // ---- Creation

  /** What `createInvoice` / `createBill` stores for company c, or the error it
      raises. The company must exist and the partner must belong to it (else
      404); the number is the next one in (company, year); tax and total follow
      the company's rate; currency and status fall back to the company's
      default currency and DRAFT; nothing is paid yet. A number already in use
      in the company violates the unique constraint. */
  function Created(k: Kind, docs: seq<Document>, companies: seq<Company>, partners: seq<Partner>,
                   input: NewDocument, c: CompanyId, u: UserId): Result<Document>
  {
    if c >= |companies| then Err(Raise(404, "NOT_FOUND", "Company not found"))
    else if !(input.partnerId < |partners| && partners[input.partnerId].companyId == c) then
      Err(Raise(404, "NOT_FOUND", Partners.Noun(PartnerKindOf(k)) + " not found"))
    else
      var company := companies[c];
      var number := NextDocumentNumber(k, docs, c, input.year);
      if NumberTaken(docs, c, number) then Err(PrismaKnown("P2002", None))
      else
        var tax := TaxAmount(input.subtotal, company.taxRate);
        var currency := if input.currency.None? || input.currency.value == "" then company.defaultCurrency
                        else input.currency.value;
        Ok(Document(c, number, input.partnerId, input.date, input.dueDate, input.subtotal, tax,
                    input.subtotal + tax, 0, currency, input.status.GetOr(Draft),
                    input.description, input.notes, u))
  }

  /** Creation fails with NOT_FOUND exactly when the company is missing or the
      partner is not one of its partners; on success the stored row carries
      the next number, the computed tax and total, nothing paid, and the
      defaults. */
  lemma CreatedSpec(k: Kind, docs: seq<Document>, companies: seq<Company>, partners: seq<Partner>,
                    input: NewDocument, c: CompanyId, u: UserId)
    ensures var r := Created(k, docs, companies, partners, input, c, u);
      (r.Err? && CodeOf(r.error) == "NOT_FOUND") <==>
        (c >= |companies| || input.partnerId >= |partners| || partners[input.partnerId].companyId != c)
    ensures var r := Created(k, docs, companies, partners, input, c, u);
      r.Ok? ==>
        && c < |companies|
        && r.value.companyId == c && r.value.partnerId == input.partnerId && r.value.createdBy == u
        && r.value.number == NextDocumentNumber(k, docs, c, input.year)
        && !NumberTaken(docs, c, r.value.number)
        && r.value.subtotal == input.subtotal
        && r.value.taxAmount == TaxAmount(input.subtotal, companies[c].taxRate)
        && r.value.totalAmount == input.subtotal + r.value.taxAmount
        && r.value.paidAmount == 0
        && r.value.status == (if input.status.Some? then input.status.value else Draft)
        && r.value.currency == (if input.currency.Some? && input.currency.value != "" then input.currency.value
                                else companies[c].defaultCurrency)
  {
  }

  lemma CreatedKeepsLedger(docs: seq<Document>, payments: seq<Payment>, d: Document)
    requires Ledger(docs, payments)
    requires !NumberTaken(docs, d.companyId, d.number) && AmountsAgree(d) && d.paidAmount == 0
    ensures Ledger(docs + [d], payments)
  {
    assert forall j :: 0 <= j < |docs| ==> !(docs[j].companyId == d.companyId && docs[j].number == d.number);
    PaidToNone(payments, |docs|);
  }

  // ---- Update and void

  /** The company's tax rate, if the company exists. */
  function RateOf(companies: seq<Company>, c: CompanyId): nat {
    if c < |companies| then companies[c].taxRate else 0
  }

  /** The row an update stores: a subtotal in the patch replaces subtotal, tax
      and total at the company's rate; each other field given replaces its
      value; company, number, payments made and creator never change. */
  function Revised(d: Document, patch: Patch, rate: nat): Document {
    var d1 := if patch.subtotal.Some? then
                d.(subtotal := patch.subtotal.value,
                   taxAmount := TaxAmount(patch.subtotal.value, rate),
                   totalAmount := TotalAmount(patch.subtotal.value, rate))
              else d;
    d1.(partnerId := Opt(patch.partnerId, d1.partnerId),
        date := Opt(patch.date, d1.date),
        dueDate := Opt(patch.dueDate, d1.dueDate),
        status := Opt(patch.status, d1.status),
        description := if patch.description.Some? then patch.description else d1.description,
        notes := Opt(patch.notes, d1.notes))
  }

  /** Whether document id exists and belongs to company c. */
  predicate Found(docs: seq<Document>, id: DocId, c: CompanyId) {
    id < |docs| && docs[id].companyId == c
  }

  /** `updateInvoice` / `updateBill`: not found outside the caller's company;
      a voided or paid document is frozen; a subtotal change reads the
      company's rate, and a missing company there is a null dereference; a
      partner that does not exist breaks the foreign key. A partner of another
      company is not rejected. */
  function UpdateOutcome(k: Kind, docs: seq<Document>, companies: seq<Company>, partners: seq<Partner>,
                         id: DocId, c: CompanyId, patch: Patch): Result<Document>
  {
    if !Found(docs, id, c) then Err(Raise(404, "NOT_FOUND", DocumentNoun(k) + " not found"))
    else if docs[id].status == Void then Err(Raise(400, "INVALID_STATUS", "Cannot update a voided " + LowerNoun(k)))
    else if docs[id].status == Paid then Err(Raise(400, "INVALID_STATUS", "Cannot update a paid " + LowerNoun(k)))
    else if patch.subtotal.Some? && c >= |companies| then Err(Unexpected("company is null"))
    else if patch.partnerId.Some? && patch.partnerId.value >= |partners| then Err(PrismaKnown("P2003", None))
    else Ok(Revised(docs[id], patch, RateOf(companies, c)))
  }

  /** An update succeeds only on a found, unfrozen document; it keeps the
      company, number, paid amount, currency and creator and the amounts in
      agreement, recomputes tax from the company's rate when the subtotal
      changes, and leaves the amounts alone otherwise; every other field
      takes the patch's value when the patch has one and keeps its own
      otherwise. */
  lemma UpdateSpec(k: Kind, docs: seq<Document>, companies: seq<Company>, partners: seq<Partner>,
                   id: DocId, c: CompanyId, patch: Patch)
    ensures var r := UpdateOutcome(k, docs, companies, partners, id, c, patch);
      r.Ok? ==>
        && Found(docs, id, c) && docs[id].status != Void && docs[id].status != Paid
        && r.value.companyId == c && r.value.number == docs[id].number
        && r.value.paidAmount == docs[id].paidAmount && r.value.createdBy == docs[id].createdBy
        && (AmountsAgree(docs[id]) ==> AmountsAgree(r.value))
        && (patch.subtotal.Some? ==>
              r.value.subtotal == patch.subtotal.value
              && r.value.taxAmount == TaxAmount(patch.subtotal.value, companies[c].taxRate))
        && (patch.subtotal.None? ==>
              r.value.subtotal == docs[id].subtotal && r.value.taxAmount == docs[id].taxAmount
              && r.value.totalAmount == docs[id].totalAmount)
    ensures var r := UpdateOutcome(k, docs, companies, partners, id, c, patch);
      r.Ok? ==>
        && r.value.partnerId == (if patch.partnerId.Some? then patch.partnerId.value else docs[id].partnerId)
        && r.value.date == (if patch.date.Some? then patch.date.value else docs[id].date)
        && r.value.dueDate == (if patch.dueDate.Some? then patch.dueDate.value else docs[id].dueDate)
        && r.value.status == (if patch.status.Some? then patch.status.value else docs[id].status)
        && r.value.description == (if patch.description.Some? then patch.description else docs[id].description)
        && r.value.notes == (if patch.notes.Some? then patch.notes.value else docs[id].notes)
        && r.value.currency == docs[id].currency
    ensures var r := UpdateOutcome(k, docs, companies, partners, id, c, patch);
      (r.Err? && CodeOf(r.error) == "NOT_FOUND") <==> !Found(docs, id, c)
    ensures var r := UpdateOutcome(k, docs, companies, partners, id, c, patch);
      (r.Err? && CodeOf(r.error) == "INVALID_STATUS") <==>
        Found(docs, id, c) && (docs[id].status == Void || docs[id].status == Paid)
  {
  }

  lemma RevisedKeepsLedger(docs: seq<Document>, payments: seq<Payment>, id: DocId, d: Document)
    requires Ledger(docs, payments) && id < |docs|
    requires d.companyId == docs[id].companyId && d.number == docs[id].number
    requires d.paidAmount == docs[id].paidAmount && AmountsAgree(d)
    ensures Ledger(docs[id := d], payments)
  {
  }

  /** `voidInvoice` / `voidBill`: only the status changes, to VOID; a voided
      document cannot be voided again and a paid one cannot be voided. */
  function VoidOutcome(k: Kind, docs: seq<Document>, id: DocId, c: CompanyId): (r: Result<Document>)
    ensures r.Ok? <==> Found(docs, id, c) && docs[id].status != Void && docs[id].status != Paid
    ensures r.Ok? ==> r.value == docs[id].(status := Void)
    ensures !Found(docs, id, c) ==> r == Err(Raise(404, "NOT_FOUND", DocumentNoun(k) + " not found"))
    ensures r.Err? && Found(docs, id, c) ==>
      r.error.App? && r.error.app.statusCode == 400 && CodeOf(r.error) == "INVALID_STATUS"
  {
    if !Found(docs, id, c) then Err(Raise(404, "NOT_FOUND", DocumentNoun(k) + " not found"))
    else if docs[id].status == Void then Err(Raise(400, "INVALID_STATUS", DocumentNoun(k) + " is already voided"))
    else if docs[id].status == Paid then Err(Raise(400, "INVALID_STATUS", "Cannot void a fully paid " + LowerNoun(k)))
    else Ok(docs[id].(status := Void))
  }

  // ---- Lookup

  /** The payments recorded against document id, in table order. */
  function PaymentsOf(payments: seq<Payment>, id: DocId): (ps: seq<Payment>)
    ensures forall p :: p in ps <==> p in payments && p.documentId == id
  {
    if |payments| == 0 then []
    else
      var init := PaymentsOf(payments[..|payments| - 1], id);
      var p := payments[|payments| - 1];
      assert forall q :: q in payments <==> q in payments[..|payments| - 1] || q == p by {
        assert payments == payments[..|payments| - 1] + [p];
      }
      if p.documentId == id then init + [p] else init
  }

  /** Most recent payment date first. */
  predicate NewestPaymentFirst(ps: seq<Payment>) {
    forall i, j :: 0 <= i < j < |ps| ==> ps[i].date >= ps[j].date
  }

  /** `p` placed before the first payment of `ps` that is not later than it. */
  function InsertByDate(p: Payment, ps: seq<Payment>): (r: seq<Payment>)
    ensures multiset(r) == multiset(ps) + multiset{p}
    ensures |r| == |ps| + 1 && (r[0] == p || (|ps| > 0 && r[0] == ps[0]))
  {
    if |ps| == 0 || ps[0].date <= p.date then [p] + ps
    else
      assert ps == [ps[0]] + ps[1..];
      [ps[0]] + InsertByDate(p, ps[1..])
  }

  lemma {:induction false} InsertKeepsOrder(p: Payment, ps: seq<Payment>)
    requires NewestPaymentFirst(ps)
    ensures NewestPaymentFirst(InsertByDate(p, ps))
  {
    if |ps| > 0 && ps[0].date > p.date {
      var rest := InsertByDate(p, ps[1..]);
      InsertKeepsOrder(p, ps[1..]);
      assert rest[0].date <= ps[0].date;
      forall i | 0 <= i < |rest|
        ensures rest[i].date <= ps[0].date
      {
        if i > 0 {
          assert rest[0].date >= rest[i].date;
        }
      }
    }
  }

  /** `orderBy: { payment_date: 'desc' }`. */
  function ByDateDescending(ps: seq<Payment>): (r: seq<Payment>)
    ensures multiset(r) == multiset(ps)
  {
    if |ps| == 0 then []
    else
      assert ps == [ps[0]] + ps[1..];
      InsertByDate(ps[0], ByDateDescending(ps[1..]))
  }

  /** The sorted payments are in date order, newest first. */
  lemma {:induction false} ByDateDescendingSorted(ps: seq<Payment>)
    ensures NewestPaymentFirst(ByDateDescending(ps))
  {
    if |ps| > 0 {
      ByDateDescendingSorted(ps[1..]);
      InsertKeepsOrder(ps[0], ByDateDescending(ps[1..]));
    }
  }

  // ---- Listing

  /** The `where` record of the list endpoint: the caller's company, and the
      status, partner and date range when they are given. */
  predicate DocSelected(d: Document, c: CompanyId, q: DocumentQuery) {
    && d.companyId == c
    && (q.status.Some? ==> d.status == q.status.value)
    && (q.partnerId.Some? ==> d.partnerId == q.partnerId.value)
    && (q.fromDate.Some? ==> d.date >= q.fromDate.value)
    && (q.toDate.Some? ==> d.date <= q.toDate.value)
  }

  /** The invoices (or bills) of one kind together with their payments. */
  class DocumentTable {
    const kind: Kind
    var docs: seq<Document>
    var payments: seq<Payment>

    predicate Valid()
      reads this
    {
      Ledger(docs, payments)
    }

    constructor (kind: Kind)
      ensures Valid() && this.kind == kind && docs == [] && payments == []
    {
      this.kind := kind;
      docs := [];
      payments := [];
    }

    /** `createInvoice` / `createBill`: on success the new row is appended and
        its id returned; on an error nothing changes. */
    method Create(companies: seq<Company>, partners: seq<Partner>, input: NewDocument, c: CompanyId, u: UserId)
      returns (r: Result<DocId>)
      requires Valid()
      modifies this
      ensures Valid() && payments == old(payments)
      ensures old(Created(kind, docs, companies, partners, input, c, u)).Err? ==>
        docs == old(docs) && r == Err(old(Created(kind, docs, companies, partners, input, c, u)).error)
      ensures old(Created(kind, docs, companies, partners, input, c, u)).Ok? ==>
        docs == old(docs) + [old(Created(kind, docs, companies, partners, input, c, u)).value] && r == Ok(old(|docs|))
    {
      var out := Created(kind, docs, companies, partners, input, c, u);
      if out.Err? {
        r := Err(out.error);
      } else {
        CreatedSpec(kind, docs, companies, partners, input, c, u);
        CreatedKeepsLedger(docs, payments, out.value);
        r := Ok(|docs|);
        docs := docs + [out.value];
      }
    }

    /** `updateInvoice` / `updateBill`: on success that one row is replaced;
        on an error nothing changes. */
    method Update(companies: seq<Company>, partners: seq<Partner>, id: DocId, c: CompanyId, patch: Patch)
      returns (r: Result<Document>)
      requires Valid()
      modifies this
      ensures Valid() && payments == old(payments)
      ensures r == old(UpdateOutcome(kind, docs, companies, partners, id, c, patch))
      ensures r.Err? ==> docs == old(docs)
      ensures r.Ok? ==> docs == old(docs)[id := r.value]
    {
      r := UpdateOutcome(kind, docs, companies, partners, id, c, patch);
      if r.Ok? {
        UpdateSpec(kind, docs, companies, partners, id, c, patch);
        RevisedKeepsLedger(docs, payments, id, r.value);
        docs := docs[id := r.value];
      }
    }

    /** `voidInvoice` / `voidBill`. */
    method VoidDocument(id: DocId, c: CompanyId) returns (r: Result<Document>)
      requires Valid()
      modifies this
      ensures Valid() && payments == old(payments)
      ensures r == old(VoidOutcome(kind, docs, id, c))
      ensures r.Err? ==> docs == old(docs)
      ensures r.Ok? ==> docs == old(docs)[id := r.value]
    {
      r := VoidOutcome(kind, docs, id, c);
      if r.Ok? {
        RevisedKeepsLedger(docs, payments, id, r.value);
        docs := docs[id := r.value];
      }
    }

    /** `getInvoiceById` / `getBillById`: the document of the caller's company
        with all its payments, most recent payment date first. */
    function Get(id: DocId, c: CompanyId): (r: Result<DocumentView>)
      reads this
      ensures r.Ok? <==> Found(docs, id, c)
      ensures r.Err? ==> r.error == Raise(404, "NOT_FOUND", DocumentNoun(kind) + " not found")
      ensures r.Ok? ==>
        && r.value.document == docs[id]
        && NewestPaymentFirst(r.value.payments)
        && (forall p :: p in r.value.payments <==> p in payments && p.documentId == id)
        && multiset(r.value.payments) == multiset(PaymentsOf(payments, id))
    {
      if !Found(docs, id, c) then Err(Raise(404, "NOT_FOUND", DocumentNoun(kind) + " not found"))
      else
        var ps := PaymentsOf(payments, id);
        ByDateDescendingSorted(ps);
        var sorted := ByDateDescending(ps);
        assert forall p :: p in sorted <==> p in multiset(sorted);
        Ok(DocumentView(docs[id], sorted))
    }

    /** The positions of the rows the list's `where` selects, newest first. */
    function Matches(c: CompanyId, q: DocumentQuery): seq<nat>
      reads this
    {
      NewestFirst(docs, d => DocSelected(d, c, q))
    }

    /** `listInvoices` / `listBills`: the selected documents, newest first,
        one page of them. */
    function List(c: CompanyId, q: DocumentQuery): (r: Result<Listing>)
      reads this
      ensures r.Ok? ==> forall k :: 0 <= k < |r.value.ids| ==>
        r.value.ids[k] < |docs| && DocSelected(docs[r.value.ids[k]], c, q)
      ensures r.Ok? ==> r.value.meta.total == |Matches(c, q)|
      ensures r.Ok? <==> ParsePagination(q.page, q.limit).skip.Finite?
      ensures r.Ok? ==>
        var ids := Matches(c, q);
        var p := ParsePagination(q.page, q.limit);
        && r.value.ids == Window(ids, p.skip.v, p.take.v)
        && r.value.meta == PaginationMeta(|ids|, p.page.v, p.limit.v)
    {
      Paginate(Matches(c, q), ParsePagination(q.page, q.limit))
    }
  }

  // ---- Properties of updates

  /** A DRAFT status in an update takes a partially paid document back to
      DRAFT while its payments stay recorded. */
  lemma StatusRegression(k: Kind, docs: seq<Document>, companies: seq<Company>, partners: seq<Partner>,
                         id: DocId, c: CompanyId)
    requires Found(docs, id, c) && docs[id].status == PartiallyPaid
    ensures var r := UpdateOutcome(k, docs, companies, partners, id, c,
                                   Patch(None, None, None, None, Some(Draft), None, None));
      r.Ok? && r.value.status == Draft && r.value.paidAmount == docs[id].paidAmount
  {
  }

  /** The partner of an update is not checked against the caller's company:
      any existing partner is accepted. */
  lemma ForeignPartnerAccepted(k: Kind, docs: seq<Document>, companies: seq<Company>, partners: seq<Partner>,
                               id: DocId, c: CompanyId, p: PartnerId)
    requires Found(docs, id, c) && docs[id].status != Void && docs[id].status != Paid
    requires p < |partners| && partners[p].companyId != c
    ensures var r := UpdateOutcome(k, docs, companies, partners, id, c,
                                   Patch(Some(p), None, None, None, None, None, None));
      r.Ok? && r.value.partnerId == p && r.value.companyId == c
  {
  }

  /** Every document's payments are covered by its total. */
  predicate Covered(docs: seq<Document>) {
    forall i :: 0 <= i < |docs| ==> docs[i].paidAmount <= docs[i].totalAmount
  }

  // ---- Finding: a subtotal change can leave more paid than owed.

  /** As written: lowering the subtotal of a partially paid invoice below what
      has been paid is accepted, and the stored invoice owes less than was
      paid on it. */
  lemma AsWrittenSubtotalBelowPaid()
    ensures var company := Company("Acme", None, None, None, None, None, None, None, "TWD", 5, 1);
      var partner := Partner(0, "C-0001", "Buyer", None, None, None, None, None, None, None, 30, 0, None, PartnerActive);
      var d := Document(0, "INV-2026-0001", 0, 0, 0, 1000, 50, 1050, 500, "TWD", PartiallyPaid, None, None, 0);
      var r := UpdateOutcome(Receivable, [d], [company], [partner], 0, 0,
                             Patch(None, None, None, Some(100), None, None, None));
      Covered([d]) && r.Ok? && r.value.totalAmount == 105 && r.value.paidAmount == 500 && !Covered([r.value])
  {
    var company := Company("Acme", None, None, None, None, None, None, None, "TWD", 5, 1);
    var partner := Partner(0, "C-0001", "Buyer", None, None, None, None, None, None, None, 30, 0, None, PartnerActive);
    var d := Document(0, "INV-2026-0001", 0, 0, 0, 1000, 50, 1050, 500, "TWD", PartiallyPaid, None, None, 0);
    var patch := Patch(None, None, None, Some(100), None, None, None);
    assert TaxAmount(100, 5) == 5;
    var r := UpdateOutcome(Receivable, [d], [company], [partner], 0, 0, patch);
    assert r == Ok(Revised(d, patch, 5));
    assert [r.value][0].paidAmount > [r.value][0].totalAmount;
  }

  /** Corrected: an update that would leave the total below the amount already
      paid is refused. */
  function UpdateOutcomeCorrected(k: Kind, docs: seq<Document>, companies: seq<Company>, partners: seq<Partner>,
                                  id: DocId, c: CompanyId, patch: Patch): Result<Document>
  {
    var r := UpdateOutcome(k, docs, companies, partners, id, c, patch);
    if r.Ok? && r.value.totalAmount < r.value.paidAmount then
      Err(Raise(400, "INVALID_AMOUNT", "Total cannot be less than the amount already paid"))
    else r
  }

  /** The corrected update keeps every document covered, and agrees with the
      written one whenever the written one keeps the document covered. */
  lemma CorrectedUpdateKeepsCovered(k: Kind, docs: seq<Document>, companies: seq<Company>, partners: seq<Partner>,
                                    id: DocId, c: CompanyId, patch: Patch)
    requires Covered(docs)
    ensures var r := UpdateOutcomeCorrected(k, docs, companies, partners, id, c, patch);
      r.Ok? ==> Found(docs, id, c) && Covered(docs[id := r.value])
    ensures var r := UpdateOutcome(k, docs, companies, partners, id, c, patch);
      (r.Ok? ==> r.value.paidAmount <= r.value.totalAmount) ==>
        UpdateOutcomeCorrected(k, docs, companies, partners, id, c, patch) == r
    ensures patch.subtotal.None? ==>
      UpdateOutcomeCorrected(k, docs, companies, partners, id, c, patch) == UpdateOutcome(k, docs, companies, partners, id, c, patch)
  {
    UpdateSpec(k, docs, companies, partners, id, c, patch);
  }
}
