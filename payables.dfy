/** Accounts payable: vendors, bills and bill payments. They run on the same
    engine as customers, invoices and invoice payments (modules Partners,
    Documents and Payments) with the vendor letter `V`, the bill prefix `BIL`
    and the nouns "Vendor" and "Bill"; the lemmas here state the payable
    instance of each rule. */
module Payables {
  import opened Common
  import opened Text
  import opened Numbering
  import opened Pagination
  import opened Tenancy
  import opened Partners
  import opened Documents
  import opened Payments

  /** Vendor codes are `V-NNNN`, numbered after the codes of the company's
      own vendors. */
  lemma VendorCodes(rows: seq<Partner>, c: CompanyId)
    ensures StartsWith(NextCode(Vendors, rows, c), "V-")
    ensures Suffix(Plain("V"), NextCode(Vendors, rows, c)) == Some(NextNumber(Plain("V"), CodesIn(rows, c)))
  {
    var n := NextNumber(Plain("V"), CodesIn(rows, c));
    assert CodeScheme(Vendors) == Plain("V");
    SuffixOfFormat(Plain("V"), n);
    assert Format(Plain("V"), n) == "V-" + Pad4(n);
  }

  /** A vendor of another company is reported as "Vendor not found". */
  lemma VendorNotFound(t: PartnerTable, id: PartnerId, c: CompanyId)
    requires t.kind == Vendors
    ensures t.Get(id, c).Err? <==> !(id < |t.rows| && t.rows[id].companyId == c)
    ensures t.Get(id, c).Err? ==> t.Get(id, c).error == Raise(404, "NOT_FOUND", "Vendor not found")
  {
    assert Partners.Noun(Vendors) + " not found" == "Vendor not found";
  }

  /** A bill needs a vendor of the caller's company and is numbered
      `BIL-<year>-NNNN` after the company's bills of that year. */
  lemma BillCreation(docs: seq<Document>, companies: seq<Company>, partners: seq<Partner>,
                     input: NewDocument, c: CompanyId, u: UserId)
    ensures var r := Created(Payable, docs, companies, partners, input, c, u);
      c < |companies| && !(input.partnerId < |partners| && partners[input.partnerId].companyId == c) ==>
        r == Err(Raise(404, "NOT_FOUND", "Vendor not found"))
    ensures var r := Created(Payable, docs, companies, partners, input, c, u);
      r.Ok? ==> StartsWith(r.value.number, "BIL-" + NatToString(input.year) + "-")
    ensures var r := Created(Payable, docs, companies, partners, input, c, u);
      var sc := Yearly("BIL", input.year);
      r.Ok? && WellFormed(sc) ==> Suffix(sc, r.value.number) == Some(NextNumber(sc, NumbersInScope(docs, c, sc)))
  {
    var sc := Yearly("BIL", input.year);
    assert Partners.Noun(PartnerKindOf(Payable)) + " not found" == "Vendor not found";
    assert Head(sc) == "BIL-" + NatToString(input.year) + "-";
    if WellFormed(sc) {
      SuffixOfFormat(sc, NextNumber(sc, NumbersInScope(docs, c, sc)));
    }
  }

  /** Updating and voiding a bill: "Bill not found" outside the company, and
      a voided or paid bill is frozen with the bill's own messages. */
  lemma BillGuards(docs: seq<Document>, companies: seq<Company>, partners: seq<Partner>,
                   id: DocId, c: CompanyId, patch: Patch)
    ensures !Found(docs, id, c) ==>
      UpdateOutcome(Payable, docs, companies, partners, id, c, patch) == Err(Raise(404, "NOT_FOUND", "Bill not found"))
      && VoidOutcome(Payable, docs, id, c) == Err(Raise(404, "NOT_FOUND", "Bill not found"))
    ensures Found(docs, id, c) && docs[id].status == Void ==>
      UpdateOutcome(Payable, docs, companies, partners, id, c, patch)
        == Err(Raise(400, "INVALID_STATUS", "Cannot update a voided bill"))
      && VoidOutcome(Payable, docs, id, c) == Err(Raise(400, "INVALID_STATUS", "Bill is already voided"))
    ensures Found(docs, id, c) && docs[id].status == Paid ==>
      UpdateOutcome(Payable, docs, companies, partners, id, c, patch)
        == Err(Raise(400, "INVALID_STATUS", "Cannot update a paid bill"))
      && VoidOutcome(Payable, docs, id, c) == Err(Raise(400, "INVALID_STATUS", "Cannot void a fully paid bill"))
  {
    assert DocumentNoun(Payable) + " not found" == "Bill not found";
    assert "Cannot update a voided " + LowerNoun(Payable) == "Cannot update a voided bill";
    assert DocumentNoun(Payable) + " is already voided" == "Bill is already voided";
    assert "Cannot update a paid " + LowerNoun(Payable) == "Cannot update a paid bill";
    assert "Cannot void a fully paid " + LowerNoun(Payable) == "Cannot void a fully paid bill";
  }

  /** Paying a bill: the bill's own messages for a missing, voided or fully
      paid bill. */
  lemma BillPaymentGuards(docs: seq<Document>, input: NewPayment, c: CompanyId)
    ensures !Found(docs, input.documentId, c) ==>
      PaymentOutcome(Payable, docs, input, c) == Err(Raise(404, "NOT_FOUND", "Bill not found"))
    ensures Found(docs, input.documentId, c) && docs[input.documentId].status == Void ==>
      PaymentOutcome(Payable, docs, input, c) == Err(Raise(400, "INVALID_STATUS", "Cannot pay a voided bill"))
    ensures Found(docs, input.documentId, c) && docs[input.documentId].status == Paid ==>
      PaymentOutcome(Payable, docs, input, c) == Err(Raise(400, "INVALID_STATUS", "Bill is already fully paid"))
  {
    assert DocumentNoun(Payable) + " not found" == "Bill not found";
    assert "Cannot pay a voided " + LowerNoun(Payable) == "Cannot pay a voided bill";
    assert DocumentNoun(Payable) + " is already fully paid" == "Bill is already fully paid";
  }

  /** Listing bills by vendor returns only that vendor's bills of the
      caller's company. */
  lemma BillsOfVendor(t: DocumentTable, c: CompanyId, q: DocumentQuery, v: PartnerId)
    requires t.kind == Payable && q.partnerId == Some(v)
    ensures var r := t.List(c, q);
      r.Ok? ==> forall k :: 0 <= k < |r.value.ids| ==>
        t.docs[r.value.ids[k]].partnerId == v && t.docs[r.value.ids[k]].companyId == c
  {
  }
}
