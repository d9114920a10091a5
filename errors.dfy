/** The error handler: every error that reaches it becomes one HTTP status
    and one error envelope. Application errors keep their own status, code,
    message and details; validation errors are 400; the database's unique
    violation (P2002) is 409 and record-not-found (P2025) is 404; everything
    else, other database codes included, is a 500 whose message reveals
    nothing. */
module ErrorHandling {
  import opened Common
  import opened Text
  import opened Responses

  datatype HttpResponse = HttpResponse(status: nat, body: Json)

  /** One segment of a validation path as `Array.prototype.join` prints it. */
  function SegmentText(k: PathKey): string {
    match k
    case Key(name) => name
    case Index(i) => NatToString(i)
  }

  function PathText(path: seq<PathKey>): string {
    Join(seq(|path|, i requires 0 <= i < |path| => SegmentText(path[i])), ".")
  }

  /** `{ path: e.path.join('.'), message: e.message }` for each issue. */
  function IssueDetails(issues: seq<Issue>): (d: seq<Json>)
    ensures |d| == |issues|
    ensures forall i :: 0 <= i < |issues| ==>
      d[i] == JObject(map["path" := JString(PathText(issues[i].path)), "message" := JString(issues[i].message)])
  {
    seq(|issues|, i requires 0 <= i < |issues| =>
      JObject(map["path" := JString(PathText(issues[i].path)), "message" := JString(issues[i].message)]))
  }

  /** `errorHandler(err, req, res, next)`. */
  function Handle(e: Error): HttpResponse {
    match e
    case App(a) => HttpResponse(a.statusCode, ErrorResponse(a.code, a.message, a.details))
    case Validation(issues) =>
      HttpResponse(400, ErrorResponse("VALIDATION_ERROR", "Validation failed", Some(JArray(IssueDetails(issues)))))
    case PrismaKnown(code, target) =>
      if code == "P2002" then
        HttpResponse(409, ErrorResponse("DUPLICATE", "Duplicate value for: " + Join(target.GetOr([]), ", "), None))
      else if code == "P2025" then HttpResponse(404, ErrorResponse("NOT_FOUND", "Record not found", None))
      else HttpResponse(500, ErrorResponse("INTERNAL_ERROR", "Internal server error", None))
    case Unexpected(_) => HttpResponse(500, ErrorResponse("INTERNAL_ERROR", "Internal server error", None))
  }

  /** The code carried by an error envelope. */
  function ResponseCode(r: HttpResponse): string
    requires r.body.JObject? && "error" in r.body.fields && r.body.fields["error"].JObject?
    requires "code" in r.body.fields["error"].fields && r.body.fields["error"].fields["code"].JString?
  {
    r.body.fields["error"].fields["code"].s
  }

  /** The classification: an application error is passed through unchanged;
      for every other error the status alone says which kind it was. */
  lemma HandleClassifies(e: Error)
    ensures var r := Handle(e);
      r.body.JObject? && r.body.fields["success"] == JBool(false)
    ensures e.App? ==>
      var r := Handle(e);
      r.status == e.app.statusCode && ResponseCode(r) == e.app.code
      && r.body.fields["error"].fields["message"] == JString(e.app.message)
    ensures !e.App? ==>
      var r := Handle(e);
      && (r.status == 400 <==> e.Validation?)
      && (r.status == 409 <==> e.PrismaKnown? && e.prismaCode == "P2002")
      && (r.status == 404 <==> e.PrismaKnown? && e.prismaCode == "P2025")
      && (r.status == 500 <==> !e.Validation? && !(e.PrismaKnown? && e.prismaCode in {"P2002", "P2025"}))
      && ResponseCode(r) == (if r.status == 400 then "VALIDATION_ERROR" else if r.status == 409 then "DUPLICATE"
                             else if r.status == 404 then "NOT_FOUND" else "INTERNAL_ERROR")
    ensures e.Validation? ==>
      Handle(e).body.fields["error"].fields["details"] == JArray(IssueDetails(e.issues))
  {
  }

  /** The message of a unique violation lists the target fields. */
  lemma DuplicateMessage(target: Option<seq<string>>)
    ensures var r := Handle(PrismaKnown("P2002", target));
      r.status == 409 && r.body.fields["error"].fields["message"] == JString("Duplicate value for: " + Join(target.GetOr([]), ", "))
  {
  }

  /** Examples of `DuplicateMessage`: a duplicate username is reported as
      `Duplicate value for: username`; one without target fields names none. */
  lemma DuplicateMessageExamples()
    ensures Handle(PrismaKnown("P2002", Some(["username"]))).body.fields["error"].fields["message"]
      == JString("Duplicate value for: username")
    ensures Handle(PrismaKnown("P2002", None)).body.fields["error"].fields["message"]
      == JString("Duplicate value for: ")
  {
    DuplicateMessage(Some(["username"]));
    assert Join(["username"], ", ") == "username";
    DuplicateMessage(None);
  }

  /** The dotted path of a validation detail reads back: when no key holds a
      dot, splitting the text at dots gives each segment of the path, keys
      as their names and array indices in decimal. */
  lemma ValidationPath(path: seq<PathKey>)
    requires |path| > 0
    requires forall k :: k in path && k.Key? ==> '.' !in k.name
    ensures Split(PathText(path), '.') == seq(|path|, i requires 0 <= i < |path| => SegmentText(path[i]))
  {
    var segs := seq(|path|, i requires 0 <= i < |path| => SegmentText(path[i]));
    forall p | p in segs
      ensures '.' !in p
    {
      var i :| 0 <= i < |segs| && segs[i] == p;
      assert path[i] in path;
      if path[i].Index? {
        var d := NatToString(path[i].i);
        assert AllDigits(d);
        assert forall j :: 0 <= j < |d| ==> d[j] != '.';
      }
    }
    SplitJoin(segs, '.');
  }

  /** Example: the amount of the first line prints as `lines.0.amount`. */
  lemma ValidationPathExample()
    ensures PathText([Key("lines"), Index(0), Key("amount")]) == "lines.0.amount"
  {
    var path := [Key("lines"), Index(0), Key("amount")];
    var segs := seq(3, i requires 0 <= i < 3 => SegmentText(path[i]));
    assert NatToString(0) == "0";
    assert segs == ["lines", "0", "amount"];
    assert segs[1..][1..] == ["amount"];
    assert Join(segs[1..], ".") == "0" + "." + "amount";
    assert Join(segs, ".") == "lines" + "." + ("0" + "." + "amount");
  }
}
