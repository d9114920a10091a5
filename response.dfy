/** The JSON envelopes of every response: `{ success: true, data, meta? }`
    and `{ success: false, error: { code, message, details? } }`. A key that
    a conditional spread leaves out is absent from the object. */
module Responses {
  import opened Common
  import opened Pagination

  function MetaJson(m: Meta): Json {
    JObject(map["page" := JNumber(m.page), "limit" := JNumber(m.limit),
                "total" := JNumber(m.total), "totalPages" := JNumber(m.totalPages)])
  }

  /** `successResponse(data, meta?)`. */
  function SuccessResponse(data: Json, meta: Option<Meta>): (j: Json)
    ensures j.JObject? && "success" in j.fields && j.fields["success"] == JBool(true)
    ensures "data" in j.fields && j.fields["data"] == data
    ensures "meta" in j.fields <==> meta.Some?
    ensures meta.Some? ==> j.fields["meta"] == MetaJson(meta.value)
    ensures j.fields.Keys <= {"success", "data", "meta"}
  {
    var base := map["success" := JBool(true), "data" := data];
    if meta.Some? then JObject(base["meta" := MetaJson(meta.value)]) else JObject(base)
  }

  /** `errorResponse(code, message, details?)`: the details are kept only
      when truthy, so `0`, `""`, `false` and `null` details vanish while an
      empty array stays. */
  function ErrorResponse(code: string, message: string, details: Option<Json>): (j: Json)
    ensures j.JObject? && j.fields.Keys == {"success", "error"} && j.fields["success"] == JBool(false)
    ensures var e := j.fields["error"];
      && e.JObject?
      && "code" in e.fields && e.fields["code"] == JString(code)
      && "message" in e.fields && e.fields["message"] == JString(message)
      && ("details" in e.fields <==> details.Some? && Truthy(details.value))
      && ("details" in e.fields ==> e.fields["details"] == details.value)
      && e.fields.Keys <= {"code", "message", "details"}
  {
    var base := map["code" := JString(code), "message" := JString(message)];
    var error := if details.Some? && Truthy(details.value) then base["details" := details.value] else base;
    JObject(map["success" := JBool(false), "error" := JObject(error)])
  }

  /** A client tells the two envelopes apart by `success` alone, and reads
      back exactly what was put in. */
  lemma EnvelopesReadBack(data: Json, meta: Option<Meta>, code: string, message: string, details: Option<Json>)
    ensures SuccessResponse(data, meta) != ErrorResponse(code, message, details)
    ensures SuccessResponse(data, meta).fields["data"] == data
    ensures ErrorResponse(code, message, details).fields["error"].fields["code"] == JString(code)
    ensures ErrorResponse(code, message, Some(JArray([]))).fields["error"].fields["details"] == JArray([])
    ensures "details" !in ErrorResponse(code, message, Some(JString(""))).fields["error"].fields
  {
    assert SuccessResponse(data, meta).fields["success"] != ErrorResponse(code, message, details).fields["success"];
  }
}
