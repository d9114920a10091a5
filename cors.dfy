/** The CORS origin check. The configured front-end URL may list several
    origins separated by commas; each is trimmed and empty pieces are
    dropped. A request without an origin is let through, a listed origin
    must match exactly, anything else is refused. */
module Cors {
  import opened Common
  import opened Text

  /** `.map((url) => url.trim()).filter(Boolean)`. */
  function TrimmedNonEmpty(parts: seq<string>): (r: seq<string>)
    ensures forall o :: o in r <==> o != "" && exists p :: p in parts && Trim(p) == o
  {
    if |parts| == 0 then []
    else
      var rest := TrimmedNonEmpty(parts[1..]);
      assert forall p :: p in parts <==> p == parts[0] || p in parts[1..];
      if Trim(parts[0]) == "" then rest else [Trim(parts[0])] + rest
  }

  /** `allowedOrigins`. */
  function AllowedOrigins(frontendUrl: string): (r: seq<string>)
    ensures forall o :: o in r <==> o != "" && exists p :: p in Split(frontendUrl, ',') && Trim(p) == o
  {
    TrimmedNonEmpty(Split(frontendUrl, ','))
  }

  /** The `origin` callback: `callback(null, true)` or the CORS error. */
  function Decide(origin: Option<string>, allowed: seq<string>): (r: Outcome)
    ensures r == Pass <==> origin.None? || origin.value == "" || origin.value in allowed
    ensures r != Pass ==> r == Fail(Unexpected("Not allowed by CORS"))
  {
    if origin.None? || origin.value == "" then Pass
    else if origin.value in allowed then Pass
    else Fail(Unexpected("Not allowed by CORS"))
  }

  /** An origin that is non-empty and has no surrounding blanks. */
  predicate Clean(p: string) {
    p != "" && Trim(p) == p
  }

  lemma {:induction false} TrimmedKeepsClean(parts: seq<string>)
    requires forall k :: 0 <= k < |parts| ==> Clean(parts[k])
    ensures TrimmedNonEmpty(parts) == parts
  {
    if |parts| > 0 {
      var rest := parts[1..];
      assert Clean(parts[0]);
      assert forall k :: 0 <= k < |rest| ==> rest[k] == parts[k + 1];
      TrimmedKeepsClean(rest);
      TrimmedCons(parts);
      assert parts == [parts[0]] + rest;
    }
  }

  /** One step of `TrimmedNonEmpty`, for a piece that is already clean. */
  lemma TrimmedCons(parts: seq<string>)
    requires |parts| > 0 && Clean(parts[0])
    ensures TrimmedNonEmpty(parts) == [parts[0]] + TrimmedNonEmpty(parts[1..])
  {
  }

  /** Configuring a comma-separated list of trimmed origins allows exactly
      those origins (plus requests without an origin). */
  lemma ConfiguredOriginsRoundTrip(urls: seq<string>, origin: string)
    requires |urls| > 0
    requires forall u :: u in urls ==> u != "" && Trim(u) == u && ',' !in u
    ensures AllowedOrigins(Join(urls, ",")) == urls
    ensures Decide(Some(origin), AllowedOrigins(Join(urls, ","))) == Pass <==> origin == "" || origin in urls
  {
    SplitJoin(urls, ',');
    forall k | 0 <= k < |urls| ensures Clean(urls[k]) {
      assert urls[k] in urls;
    }
    TrimmedKeepsClean(urls);
  }
}
