/** Paging of list endpoints: the `page` and `limit` query strings become a
    page number, a page size between 1 and 100, and the `skip`/`take` window
    the list queries use; the response carries a `meta` block with the page
    count. JavaScript numbers are modelled as integers plus `NaN`. */
module Pagination {
  import opened Common
  import opened Text

  /** A JavaScript number as these helpers can produce it. */
  datatype Num = Finite(v: int) | NaN

  /** `Math.max`: NaN if either argument is NaN. */
  function Max(a: Num, b: Num): Num {
    if a.NaN? || b.NaN? then NaN else Finite(if a.v >= b.v then a.v else b.v)
  }

  /** `Math.min`: NaN if either argument is NaN. */
  function Min(a: Num, b: Num): Num {
    if a.NaN? || b.NaN? then NaN else Finite(if a.v <= b.v then a.v else b.v)
  }

  /** `parseInt(s, 10)`: leading white space is skipped, an optional sign is
      read, then the longest run of decimal digits; no digit at all gives NaN. */
  function ParseInt(s: string): Num {
    var t := TrimStart(s);
    var negative := |t| > 0 && t[0] == '-';
    var rest := if |t| > 0 && (t[0] == '-' || t[0] == '+') then t[1..] else t;
    var digits := DigitRun(rest);
    if |digits| == 0 then NaN
    else Finite(if negative then -(DigitsValue(digits) as int) else DigitsValue(digits))
  }

  datatype Paging = Paging(page: Num, limit: Num, skip: Num, take: Num)

  /** What `parsePagination` guarantees of its result. */
  predicate Usable(p: Paging) {
    && (p.page.Finite? ==> p.page.v >= 1)
    && (p.limit.Finite? ==> 1 <= p.limit.v <= 100)
    && p.take == p.limit
    && (p.skip.Finite? <==> p.page.Finite? && p.limit.Finite?)
    && (p.skip.Finite? ==> p.skip.v == (p.page.v - 1) * p.limit.v && p.skip.v >= 0)
  }

  /** `parsePagination(query)`. */
  function ParsePagination(page: Option<string>, limit: Option<string>): (p: Paging)
    ensures p.page.Finite? ==> p.page.v >= 1
    ensures p.limit.Finite? ==> 1 <= p.limit.v <= 100
    ensures p.take == p.limit
    ensures p.skip.Finite? <==> p.page.Finite? && p.limit.Finite?
    ensures p.skip.Finite? ==> p.skip.v == (p.page.v - 1) * p.limit.v && p.skip.v >= 0
    ensures Usable(p)
  {
    PagingOf(ParseInt(OrDefault(page, "1")), ParseInt(OrDefault(limit, "20")))
  }

  /** The paging for the numbers read from the two query strings. */
  function PagingOf(rawPage: Num, rawLimit: Num): (p: Paging)
    ensures p.page == ClampPage(rawPage) && p.limit == ClampLimit(rawLimit) && p.take == p.limit
    ensures p.skip.Finite? <==> rawPage.Finite? && rawLimit.Finite?
    ensures p.skip.Finite? ==> p.skip.v == (p.page.v - 1) * p.limit.v && p.skip.v >= 0
  {
    var pg := ClampPage(rawPage);
    var lim := ClampLimit(rawLimit);
    var skip := if pg.NaN? || lim.NaN? then NaN else Finite(Skip(pg.v, lim.v));
    Paging(pg, lim, skip, lim)
  }

  /** `Math.max(1, n)`. */
  function ClampPage(n: Num): (p: Num)
    ensures p.NaN? <==> n.NaN?
    ensures p.Finite? ==> p.v >= 1 && (n.v >= 1 ==> p.v == n.v)
  {
    Max(Finite(1), n)
  }

  /** `Math.min(100, Math.max(1, n))`. */
  function ClampLimit(n: Num): (l: Num)
    ensures l.NaN? <==> n.NaN?
    ensures l.Finite? ==> 1 <= l.v <= 100 && (1 <= n.v <= 100 ==> l.v == n.v)
  {
    Min(Finite(100), Max(Finite(1), n))
  }

  /** `(page - 1) * limit`. */
  function Skip(page: int, limit: int): (skip: int)
    requires page >= 1 && limit >= 1
    ensures skip >= 0
  {
    MultiplyNonnegative(page - 1, limit);
    (page - 1) * limit
  }

  lemma MultiplyNonnegative(a: int, b: int)
    requires a >= 0 && b >= 0
    ensures a * b >= 0
  {
  }

  /** A page or limit written as a plain decimal number is read back exactly. */
  lemma {:induction false} ParseIntOfDecimal(n: nat)
    ensures ParseInt(NatToString(n)) == Finite(n)
  {
    var s := NatToString(n);
    assert IsDigit(s[0]);
    assert !IsSpace(s[0]);
    assert TrimStart(s) == s;
    assert s[0] != '-' && s[0] != '+';
    DigitRunOfDigits(s);
  }

  lemma {:induction false} DigitRunOfDigits(s: string)
    requires AllDigits(s)
    ensures DigitRun(s) == s
  {
    if |s| > 0 {
      DigitRunOfDigits(s[1..]);
    }
  }

  /** Without page and limit the first page of 20 rows is read. */
  lemma DefaultPaging()
    ensures ParsePagination(None, None) == Paging(Finite(1), Finite(20), Finite(0), Finite(20))
  {
    assert NatToString(1) == "1";
    assert NatToString(20) == NatToString(2) + "0" == "20";
    ParseIntOfDecimal(1);
    ParseIntOfDecimal(20);
    assert ParseInt(OrDefault(None, "1")) == Finite(1);
    assert ParseInt(OrDefault(None, "20")) == Finite(20);
    PagingOfNumbers(1, 20);
  }

  /** Any decimal page and limit give a usable window: page n (at least 1) and
      the limit clamped into 1..100. */
  lemma DecimalPaging(n: nat, m: nat)
    ensures var p := ParsePagination(Some(NatToString(n)), Some(NatToString(m)));
      p.page == Finite(if n >= 1 then n else 1)
      && p.limit == Finite(if m < 1 then 1 else if m > 100 then 100 else m)
      && p.skip.Finite?
  {
    var sn, sm := NatToString(n), NatToString(m);
    ReadDecimal(sn, "1", n);
    ReadDecimal(sm, "20", m);
    assert ParsePagination(Some(sn), Some(sm)) == PagingOf(Finite(n), Finite(m));
    PagingOfNumbers(n, m);
  }

  /** The paging of two numbers, written out. */
  lemma PagingOfNumbers(n: int, m: int)
    ensures var pg := if n >= 1 then n else 1;
      var lim := if m < 1 then 1 else if m > 100 then 100 else m;
      PagingOf(Finite(n), Finite(m)) == Paging(Finite(pg), Finite(lim), Finite((pg - 1) * lim), Finite(lim))
  {
    assert ClampPage(Finite(n)) == Finite(if n >= 1 then n else 1);
    assert ClampLimit(Finite(m)) == Finite(if m < 1 then 1 else if m > 100 then 100 else m);
  }

  lemma ReadDecimal(s: string, fallback: string, n: nat)
    requires s == NatToString(n)
    ensures ParseInt(OrDefault(Some(s), fallback)) == Finite(n)
  {
    ParseIntOfDecimal(n);
  }

  datatype Meta = Meta(page: int, limit: int, total: nat, totalPages: int)

  /** `Math.ceil(a / b)` for a nonnegative a and a positive b. */
  function CeilDiv(a: nat, b: nat): (q: nat)
    requires b >= 1
    ensures q * b >= a
    ensures q == 0 || (q - 1) * b < a
  {
    (a + b - 1) / b
  }

  /** `paginationMeta(total, page, limit)`: page, limit and total echoed, and
      the number of pages of `limit` rows needed to hold `total` rows. */
  function PaginationMeta(total: nat, page: int, limit: int): (m: Meta)
    requires limit >= 1
    ensures m.page == page && m.limit == limit && m.total == total
    ensures m.totalPages * limit >= total
    ensures m.totalPages == 0 || (m.totalPages - 1) * limit < total
    ensures m.totalPages == 0 <==> total == 0
  {
    Meta(page, limit, total, CeilDiv(total, limit))
  }

  /** The rows `skip`/`take` select from an ordered result. */
  function Window<T>(rows: seq<T>, skip: nat, take: nat): (w: seq<T>)
    ensures |w| <= take
    ensures |w| == if skip >= |rows| then 0 else if |rows| - skip < take then |rows| - skip else take
    ensures forall i :: 0 <= i < |w| ==> w[i] == rows[skip + i]
  {
    if skip >= |rows| then []
    else if |rows| - skip < take then rows[skip..]
    else rows[skip..skip + take]
  }

  /** The positions of the rows a `where` filter keeps, newest first: the
      lists order by `created_at` descending, and rows are appended in
      creation order. */
  function NewestFirst<T>(rows: seq<T>, keep: T -> bool): (ids: seq<nat>)
    ensures forall k :: 0 <= k < |ids| ==> ids[k] < |rows| && keep(rows[ids[k]])
    ensures forall i :: 0 <= i < |rows| && keep(rows[i]) ==> i in ids
    ensures forall k, l :: 0 <= k < l < |ids| ==> ids[k] > ids[l]
  {
    if |rows| == 0 then []
    else
      var init := NewestFirst(rows[..|rows| - 1], keep);
      if keep(rows[|rows| - 1]) then [|rows| - 1] + init else init
  }

  /** One page of a list endpoint: the selected rows and the `meta` block. */
  datatype Listing = Listing(ids: seq<nat>, meta: Meta)

  /** `findMany({ where, skip, take, orderBy })` together with
      `count({ where })`. A NaN `skip` or `take` is rejected by the database
      client, which the error handler reports as an internal error. */
  function Paginate(ids: seq<nat>, p: Paging): (r: Result<Listing>)
    requires Usable(p)
    ensures r.Ok? <==> p.skip.Finite?
    ensures r.Ok? ==> r.value.meta.total == |ids| && |r.value.ids| <= p.take.v
    ensures r.Ok? ==> forall k :: 0 <= k < |r.value.ids| ==> p.skip.v + k < |ids| && r.value.ids[k] == ids[p.skip.v + k]
    ensures r.Ok? ==> r.value.ids == Window(ids, p.skip.v, p.take.v)
    ensures r.Ok? ==> r.value.meta == PaginationMeta(|ids|, p.page.v, p.limit.v)
  {
    if p.skip.NaN? then
      Err(Unexpected("skip or take is not a number"))
    else
      Ok(Listing(Window(ids, p.skip.v, p.take.v), PaginationMeta(|ids|, p.page.v, p.limit.v)))
  }

  // ---- Finding: a page or limit that is not a number yields NaN.

  /** As written: `?page=abc` makes page and skip NaN, which the database
      query rejects, so the request ends in an internal error instead of
      reading the first page. */
  lemma AsWrittenNonNumericPage()
    ensures ParsePagination(Some("abc"), None).page == NaN
    ensures ParsePagination(Some("abc"), None).skip == NaN
  {
    NonNumericPage("abc", None);
  }

  /** Any page text that starts with neither a blank, a sign nor a digit
      reads as NaN, and so do the page and skip, whatever the limit. */
  lemma NonNumericPage(s: string, limit: Option<string>)
    requires |s| > 0 && !IsSpace(s[0]) && !IsDigit(s[0]) && s[0] != '-' && s[0] != '+'
    ensures ParsePagination(Some(s), limit).page == NaN
    ensures ParsePagination(Some(s), limit).skip == NaN
  {
    assert TrimStart(s) == s;
    assert DigitRun(s) == [];
    assert ParseInt(OrDefault(Some(s), "1")) == NaN;
    NaNPage(ParseInt(OrDefault(limit, "20")));
  }

  /** A page that is not a number leaves page and skip NaN, whatever the limit. */
  lemma NaNPage(rawLimit: Num)
    ensures PagingOf(NaN, rawLimit).page == NaN && PagingOf(NaN, rawLimit).skip == NaN
  {
  }

  /** Corrected: a value that is not a number falls back to the default. */
  function ParsePaginationCorrected(page: Option<string>, limit: Option<string>): Paging {
    var rawPage := ParseInt(OrDefault(page, "1"));
    var rawLimit := ParseInt(OrDefault(limit, "20"));
    PagingOf(if rawPage.NaN? then Finite(1) else rawPage, if rawLimit.NaN? then Finite(20) else rawLimit)
  }

  /** The corrected parser always yields a usable window, and agrees with the
      written one whenever the written one yields numbers. */
  lemma CorrectedPagingIsTotal(page: Option<string>, limit: Option<string>)
    ensures var p := ParsePaginationCorrected(page, limit);
      p.page.Finite? && p.page.v >= 1 && p.limit.Finite? && 1 <= p.limit.v <= 100
      && p.skip.Finite? && p.skip.v == (p.page.v - 1) * p.limit.v && p.skip.v >= 0 && p.take == p.limit
    ensures ParsePagination(page, limit).skip.Finite? ==>
      ParsePaginationCorrected(page, limit) == ParsePagination(page, limit)
  {
  }
}
