/** Business partners: the customers of a company (AR) and its vendors (AP).
    Both tables behave alike; a partner's code is `C-NNNN` or `V-NNNN`,
    numbered per company (no year), from the text-greatest code in the
    company. Every lookup is scoped to the caller's company: a partner of
    another company is reported as not found. */
module Partners {
  import opened Common
  import opened Text
  import opened Numbering
  import opened Pagination

  datatype PartnerKind = Customers | Vendors

  /** The code letter: `C` for customers, `V` for vendors. */
  function Letter(k: PartnerKind): string {
    match k
    case Customers => "C"
    case Vendors => "V"
  }

  function Noun(k: PartnerKind): string {
    match k
    case Customers => "Customer"
    case Vendors => "Vendor"
  }

  function CodeScheme(k: PartnerKind): Scheme {
    Plain(Letter(k))
  }

  datatype PartnerStatus = PartnerActive | PartnerInactive

  /** A customer or vendor row. Amounts are in minor units. */
  datatype Partner = Partner(
    companyId: CompanyId,
    code: string,
    name: string,
    shortName: Option<string>,
    taxId: Option<string>,
    contactPerson: Option<string>,
    phone: Option<string>,
    fax: Option<string>,
    email: Option<string>,
    address: Option<string>,
    paymentTerms: nat,
    creditLimit: nat,
    notes: Option<string>,
    status: PartnerStatus)

  /** The fields a create request may carry. */
  datatype NewPartner = NewPartner(
    name: string,
    shortName: Option<string>,
    taxId: Option<string>,
    contactPerson: Option<string>,
    phone: Option<string>,
    fax: Option<string>,
    email: Option<string>,
    address: Option<string>,
    paymentTerms: Option<nat>,
    creditLimit: Option<nat>,
    notes: Option<string>)

  /** The fields an update request may carry: `None` leaves a field as it
      is; `Some(None)` stores null in a nullable field. */
  datatype PartnerPatch = PartnerPatch(
    name: Option<string>,
    shortName: Option<Option<string>>,
    taxId: Option<Option<string>>,
    contactPerson: Option<Option<string>>,
    phone: Option<Option<string>>,
    fax: Option<Option<string>>,
    email: Option<Option<string>>,
    address: Option<Option<string>>,
    paymentTerms: Option<nat>,
    creditLimit: Option<nat>,
    notes: Option<Option<string>>,
    status: Option<PartnerStatus>)

  /** The list query: optional search text, status, page and limit. */
  datatype PartnerQuery = PartnerQuery(
    search: Option<string>,
    status: Option<PartnerStatus>,
    page: Option<string>,
    limit: Option<string>)

  /** The codes of the partners of company c, in table order. */
  function CodesIn(rows: seq<Partner>, c: CompanyId): (codes: seq<string>)
    ensures forall x :: x in codes <==> exists i :: 0 <= i < |rows| && rows[i].companyId == c && rows[i].code == x
  {
    if |rows| == 0 then []
    else
      var init := CodesIn(rows[..|rows| - 1], c);
      assert forall i :: 0 <= i < |rows| - 1 ==> rows[..|rows| - 1][i] == rows[i];
      if rows[|rows| - 1].companyId == c then init + [rows[|rows| - 1].code] else init
  }

  /** The code the next partner of company c gets. */
  function NextCode(k: PartnerKind, rows: seq<Partner>, c: CompanyId): string {
    Format(CodeScheme(k), NextNumber(CodeScheme(k), CodesIn(rows, c)))
  }

  function Opt<T>(patch: Option<T>, current: T): T {
    if patch.Some? then patch.value else current
  }

  /** The partner an update stores: each field given in the patch replaces the
      old value, every other field keeps it. */
  function Patched(p: Partner, patch: PartnerPatch): Partner {
    p.(name := Opt(patch.name, p.name),
       shortName := Opt(patch.shortName, p.shortName),
       taxId := Opt(patch.taxId, p.taxId),
       contactPerson := Opt(patch.contactPerson, p.contactPerson),
       phone := Opt(patch.phone, p.phone),
       fax := Opt(patch.fax, p.fax),
       email := Opt(patch.email, p.email),
       address := Opt(patch.address, p.address),
       paymentTerms := Opt(patch.paymentTerms, p.paymentTerms),
       creditLimit := Opt(patch.creditLimit, p.creditLimit),
       notes := Opt(patch.notes, p.notes),
       status := Opt(patch.status, p.status))
  }

  /** Whether a partner matches the list search text: name, code or contact
      person contain it ignoring case, or the tax id contains it exactly. */
  predicate MatchesSearch(p: Partner, search: string) {
    || ContainsInsensitive(p.name, search)
    || ContainsInsensitive(p.code, search)
    || (p.contactPerson.Some? && ContainsInsensitive(p.contactPerson.value, search))
    || (p.taxId.Some? && Contains(p.taxId.value, search))
  }

  /** The `where` record of the list endpoint. */
  predicate Selected(p: Partner, c: CompanyId, q: PartnerQuery) {
    && p.companyId == c
    && (q.search.Some? && q.search.value != "" ==> MatchesSearch(p, q.search.value))
    && (q.status.Some? ==> p.status == q.status.value)
  }

  /** A company's customers or vendors. */
  class PartnerTable {
    const kind: PartnerKind
    var rows: seq<Partner>

    constructor (kind: PartnerKind)
      ensures this.kind == kind && rows == []
    {
      this.kind := kind;
      rows := [];
    }

    /** The row a create request stores for company c. Payment terms default
        to 30 days and the credit limit to 0; the status starts ACTIVE (the
        column default). */
    function Created(input: NewPartner, c: CompanyId): (p: Partner)
      reads this
      ensures p.companyId == c && p.code == NextCode(kind, rows, c)
      ensures p.paymentTerms == input.paymentTerms.GetOr(30) && p.creditLimit == input.creditLimit.GetOr(0)
      ensures p.name == input.name && p.notes == input.notes && p.status == PartnerActive
    {
      Partner(c, NextCode(kind, rows, c), input.name, input.shortName, input.taxId, input.contactPerson,
              input.phone, input.fax, input.email, input.address,
              input.paymentTerms.GetOr(30), input.creditLimit.GetOr(0), input.notes, PartnerActive)
    }

    /** `createCustomer` / `createVendor`: the new row is appended and its id
        returned. `companyCount` is the number of company rows: a company id
        beyond them breaks the row's foreign key and nothing is stored. */
    method Create(input: NewPartner, c: CompanyId, companyCount: nat) returns (r: Result<PartnerId>)
      modifies this
      ensures c >= companyCount ==> r == Err(PrismaKnown("P2003", None)) && rows == old(rows)
      ensures c < companyCount ==> rows == old(rows) + [old(Created(input, c))] && r == Ok(old(|rows|))
    {
      if c >= companyCount {
        return Err(PrismaKnown("P2003", None));
      }
      var p := Created(input, c);
      r := Ok(|rows|);
      rows := rows + [p];
    }

    /** `getCustomerById` / `getVendorById`. */
    function Get(id: PartnerId, c: CompanyId): (r: Result<Partner>)
      reads this
      ensures r.Ok? <==> id < |rows| && rows[id].companyId == c
      ensures r.Ok? ==> r.value == rows[id]
      ensures r.Err? ==> r.error == Raise(404, "NOT_FOUND", Noun(kind) + " not found")
    {
      if id < |rows| && rows[id].companyId == c then Ok(rows[id])
      else Err(Raise(404, "NOT_FOUND", Noun(kind) + " not found"))
    }

    /** `updateCustomer` / `updateVendor`: a partner of another company is not
        found and nothing changes; otherwise the patch is applied to that one
        row. */
    method Update(id: PartnerId, c: CompanyId, patch: PartnerPatch) returns (r: Result<Partner>)
      modifies this
      ensures old(Get(id, c)).Err? ==> r == old(Get(id, c)) && rows == old(rows)
      ensures old(Get(id, c)).Ok? ==>
        rows == old(rows)[id := Patched(old(rows)[id], patch)] && r == Ok(rows[id])
    {
      r := Get(id, c);
      if r.Ok? {
        rows := rows[id := Patched(rows[id], patch)];
        r := Ok(rows[id]);
      }
    }

    /** The positions of the rows the list's `where` selects, newest first. */
    function Matches(c: CompanyId, q: PartnerQuery): seq<nat>
      reads this
    {
      NewestFirst(rows, p => Selected(p, c, q))
    }

    /** `listCustomers` / `listVendors`: the partners of company c that pass
        the filters, newest first, one page of them. */
    function List(c: CompanyId, q: PartnerQuery): (r: Result<Listing>)
      reads this
      ensures r.Ok? ==> forall k :: 0 <= k < |r.value.ids| ==>
        r.value.ids[k] < |rows| && rows[r.value.ids[k]].companyId == c
        && Selected(rows[r.value.ids[k]], c, q)
      ensures r.Ok? ==> r.value.meta.total == |Matches(c, q)|
      ensures r.Ok? <==> ParsePagination(q.page, q.limit).skip.Finite?
      ensures r.Ok? ==>
        var ids := Matches(c, q);
        var p := ParsePagination(q.page, q.limit);
        && r.value.ids == Window(ids, p.skip.v, p.take.v)
        && r.value.meta == PaginationMeta(|ids|, p.page.v, p.limit.v)
    {
      Paginate(Matches(c, q), ParsePagination(q.page, q.limit))
    }
  }

  /** A partner's code depends only on the partners of its own company. */
  lemma CodesScopedToCompany(k: PartnerKind, rows: seq<Partner>, other: Partner, c: CompanyId)
    requires other.companyId != c
    ensures NextCode(k, rows + [other], c) == NextCode(k, rows, c)
  {
    assert (rows + [other])[..|rows|] == rows;
  }

  /** The first partner of a company gets code number 1 (`C-0001`). */
  lemma FirstCode(k: PartnerKind, rows: seq<Partner>, c: CompanyId)
    requires forall i :: 0 <= i < |rows| ==> rows[i].companyId != c
    ensures NextCode(k, rows, c) == Format(CodeScheme(k), 1)
  {
    NoCodesWithoutPartners(rows, c);
  }

  lemma {:induction false} NoCodesWithoutPartners(rows: seq<Partner>, c: CompanyId)
    requires forall i :: 0 <= i < |rows| ==> rows[i].companyId != c
    ensures CodesIn(rows, c) == []
  {
    if |rows| > 0 {
      NoCodesWithoutPartners(rows[..|rows| - 1], c);
    }
  }

  /** The same patch applied twice stores the same row as applied once, and
      an empty patch changes nothing. */
  lemma PatchIdempotent(p: Partner, patch: PartnerPatch)
    ensures Patched(Patched(p, patch), patch) == Patched(p, patch)
    ensures Patched(p, PartnerPatch(None, None, None, None, None, None, None, None, None, None, None, None)) == p
  {
  }
}
