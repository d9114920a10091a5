/** Recording a payment against an invoice (AR) or a bill (AP): the payment
    row is written and the document's paid amount and status are updated in
    one transaction. A payment may not exceed what remains to be paid, so a
    document never ends up owing less than nothing through payments. */
module Payments {
  import opened Common
  import opened Text
  import opened Documents

  /** A payment request. */
  datatype NewPayment = NewPayment(
    documentId: DocId,
    date: Date,
    amount: nat,
    paymentMethod: Option<PaymentMethod>,
    referenceNo: Option<string>,
    notes: Option<string>)

  /** `String(x)` of an amount held in minor units: an optional minus sign,
      the whole units, then the hundredths without trailing zeros. */
  function AmountText(m: int): string {
    var a: nat := if m < 0 then -m else m;
    var cents := a % 100;
    (if m < 0 then "-" else "") + NatToString(a / 100)
    + (if cents == 0 then ""
       else if cents % 10 == 0 then ['.', DigitChar(cents / 10)]
       else ['.', DigitChar(cents / 10), DigitChar(cents % 10)])
  }

  /** What remains to be paid on a document; negative when more has been paid
      than the total. */
  function Remaining(d: Document): int {
    d.totalAmount as int - d.paidAmount as int
  }

  /** `createPayment`'s checks and the document it stores: the document must
      be the caller's company's; a voided or fully paid document takes no
      payment; the amount may not exceed the remaining balance. The paid
      amount grows by the payment, and the status becomes PAID once the
      total is reached and PARTIALLY_PAID before. */
  function PaymentOutcome(k: Kind, docs: seq<Document>, input: NewPayment, c: CompanyId): Result<Document> {
    var id := input.documentId;
    if !Found(docs, id, c) then Err(Raise(404, "NOT_FOUND", DocumentNoun(k) + " not found"))
    else if docs[id].status == Void then Err(Raise(400, "INVALID_STATUS", "Cannot pay a voided " + LowerNoun(k)))
    else if docs[id].status == Paid then Err(Raise(400, "INVALID_STATUS", DocumentNoun(k) + " is already fully paid"))
    else if input.amount > Remaining(docs[id]) then
      Err(Raise(400, "OVERPAYMENT", "Payment amount exceeds remaining balance of " + AmountText(Remaining(docs[id]))))
    else
      var paid := docs[id].paidAmount + input.amount;
      Ok(docs[id].(paidAmount := paid, status := if paid >= docs[id].totalAmount then Paid else PartiallyPaid))
  }

  /** The payment row written: the method defaults to BANK_TRANSFER. */
  function Recorded(input: NewPayment, c: CompanyId, u: UserId): Payment {
    Payment(input.documentId, c, input.date, input.amount, input.paymentMethod.GetOr(BankTransfer),
            input.referenceNo, input.notes, u)
  }

  /** A payment is accepted exactly on a found, unvoided, unpaid document when
      it does not exceed the balance; it then adds its amount to the paid
      amount, never takes it past the total, and marks the document PAID
      exactly when it settles the balance. Nothing but the paid amount and
      the status changes. */
  lemma PaymentSpec(k: Kind, docs: seq<Document>, input: NewPayment, c: CompanyId)
    ensures var r := PaymentOutcome(k, docs, input, c);
      r.Ok? <==>
        Found(docs, input.documentId, c)
        && docs[input.documentId].status != Void && docs[input.documentId].status != Paid
        && input.amount <= Remaining(docs[input.documentId])
    ensures var r := PaymentOutcome(k, docs, input, c);
      r.Ok? ==>
        var d := docs[input.documentId];
        && r.value.paidAmount == d.paidAmount + input.amount
        && r.value.paidAmount <= r.value.totalAmount
        && (r.value.status == Paid <==> r.value.paidAmount == d.totalAmount)
        && (r.value.status != Paid ==> r.value.status == PartiallyPaid)
        && r.value == d.(paidAmount := r.value.paidAmount, status := r.value.status)
    ensures var r := PaymentOutcome(k, docs, input, c);
      (r.Err? && CodeOf(r.error) == "OVERPAYMENT") <==>
        Found(docs, input.documentId, c)
        && docs[input.documentId].status != Void && docs[input.documentId].status != Paid
        && input.amount > Remaining(docs[input.documentId])
  {
  }

  /** Payments keep every document covered: once the paid amount is within
      the total, it stays there. */
  lemma PaymentKeepsCovered(k: Kind, docs: seq<Document>, input: NewPayment, c: CompanyId)
    requires Covered(docs)
    ensures var r := PaymentOutcome(k, docs, input, c);
      r.Ok? ==> Covered(docs[input.documentId := r.value])
  {
  }

  /** A document whose paid amount exceeds its total (see the subtotal
      finding) refuses every further payment as an overpayment, unless it is
      voided or marked paid. */
  lemma UncoveredRefusesPayments(k: Kind, docs: seq<Document>, input: NewPayment, c: CompanyId)
    requires Found(docs, input.documentId, c)
    requires docs[input.documentId].paidAmount > docs[input.documentId].totalAmount
    requires docs[input.documentId].status != Void && docs[input.documentId].status != Paid
    ensures var r := PaymentOutcome(k, docs, input, c);
      r.Err? && CodeOf(r.error) == "OVERPAYMENT"
  {
  }

  /** Paying the remaining balance in full settles the document. */
  lemma FullPaymentSettles(k: Kind, docs: seq<Document>, input: NewPayment, c: CompanyId)
    requires Found(docs, input.documentId, c)
    requires docs[input.documentId].status != Void && docs[input.documentId].status != Paid
    requires input.amount as int == Remaining(docs[input.documentId])
    ensures var r := PaymentOutcome(k, docs, input, c);
      r.Ok? && r.value.status == Paid && r.value.paidAmount == r.value.totalAmount
  {
  }

  lemma PaymentKeepsLedger(docs: seq<Document>, payments: seq<Payment>, id: DocId, d: Document, p: Payment)
    requires Ledger(docs, payments) && id < |docs|
    requires p.documentId == id && p.companyId == docs[id].companyId
    requires d.companyId == docs[id].companyId && d.number == docs[id].number && AmountsAgree(d)
    requires d.paidAmount == docs[id].paidAmount + p.amount
    ensures Ledger(docs[id := d], payments + [p])
  {
    var docs' := docs[id := d];
    var payments' := payments + [p];
    forall q | q in payments'
      ensures q.documentId < |docs'| && docs'[q.documentId].companyId == q.companyId
    {
      if q != p {
        assert q in payments;
      }
    }
    forall i | 0 <= i < |docs'|
      ensures docs'[i].paidAmount == PaidTo(payments', i)
    {
      PaidToAppend(payments, p, i);
    }
  }

  /** `createPayment`: on success the payment row is appended and the
      document updated; on an error nothing changes. The ledger invariant
      (paid amount equals the sum of the document's payments) is kept. */
  method CreatePayment(t: DocumentTable, input: NewPayment, c: CompanyId, u: UserId) returns (r: Result<Payment>)
    requires t.Valid()
    modifies t
    ensures t.Valid()
    ensures old(PaymentOutcome(t.kind, t.docs, input, c)).Err? ==>
      r == Err(old(PaymentOutcome(t.kind, t.docs, input, c)).error)
      && t.docs == old(t.docs) && t.payments == old(t.payments)
    ensures old(PaymentOutcome(t.kind, t.docs, input, c)).Ok? ==>
      r == Ok(Recorded(input, c, u))
      && t.payments == old(t.payments) + [Recorded(input, c, u)]
      && t.docs == old(t.docs)[input.documentId := old(PaymentOutcome(t.kind, t.docs, input, c)).value]
  {
    var out := PaymentOutcome(t.kind, t.docs, input, c);
    if out.Err? {
      r := Err(out.error);
    } else {
      PaymentSpec(t.kind, t.docs, input, c);
      var p := Recorded(input, c, u);
      PaymentKeepsLedger(t.docs, t.payments, input.documentId, out.value, p);
      t.payments := t.payments + [p];
      t.docs := t.docs[input.documentId := out.value];
      r := Ok(p);
    }
  }
}
