/**
 * The typed responses of the generated client (api_client.gen.go): which slot of an
 * `...Response` record a `(Content-Type, status)` pair fills, and `StatusCode()`/`Status()`.
 *
 * The HTTP response is an input: its status, its Content-Type header, the outcome of reading its
 * body, and the outcome of decoding that body as a JSON object whose fields are read as strings.
 */
module Responses {
  import opened Wrappers
  import opened Strings

  /** A decoded JSON object, field name to value. */
  type JsonObject = map<string, string>

  datatype HttpResponse = HttpResponse(
    statusCode: int,
    status: string,
    contentType: string,
    body: Result<string, string>,          // io.ReadAll's result
    json: Result<JsonObject, string>)      // json.Unmarshal's result on that body

  // The payload types of api_model.gen.go that the slots hold.
  datatype SubmitSuccess = SubmitSuccess(id: string)
  datatype N400Error = N400Error(message: string)
  datatype N500Error = N500Error(message: string)
  datatype StatusResult = StatusResult(id: string, token: Option<string>, url: Option<string>)
  datatype UploadResult = UploadResult(fields: JsonObject)

  datatype EmailResponse = EmailResponse(
    body: string, http: Option<HttpResponse>,
    json200: Option<SubmitSuccess>, json400: Option<N400Error>, json500: Option<N500Error>)

  datatype EmailStatusResponse = EmailStatusResponse(
    body: string, http: Option<HttpResponse>,
    json200: Option<StatusResult>, json404: Option<N400Error>, json500: Option<N500Error>)

  datatype ContentPostResponse = ContentPostResponse(
    body: string, http: Option<HttpResponse>,
    json200: Option<UploadResult>, json400: Option<N500Error>, json500: Option<N500Error>)

  datatype StylePublishResponse = StylePublishResponse(
    body: string, http: Option<HttpResponse>,
    json400: Option<N500Error>, json500: Option<N500Error>)

  // ---------------------------------------------------------------------------------------------
  // Decoding into the payload types: a missing field decodes to Go's zero value.
  // ---------------------------------------------------------------------------------------------

  function StringField(o: JsonObject, k: string): string
  {
    if k in o then o[k] else ""
  }

  function PointerField(o: JsonObject, k: string): Option<string>
  {
    if k in o then Some(o[k]) else None
  }

  function ToSubmitSuccess(o: JsonObject): SubmitSuccess { SubmitSuccess(StringField(o, "id")) }
  function ToN400Error(o: JsonObject): N400Error { N400Error(StringField(o, "message")) }
  function ToN500Error(o: JsonObject): N500Error { N500Error(StringField(o, "message")) }
  function ToStatusResult(o: JsonObject): StatusResult
  {
    StatusResult(StringField(o, "id"), PointerField(o, "token"), PointerField(o, "url"))
  }

  // ---------------------------------------------------------------------------------------------
  // The switch shared by all Parse...Response functions
  // ---------------------------------------------------------------------------------------------

  /** The condition of each switch case: a JSON content type and the case's status. */
  predicate JsonWith(rsp: HttpResponse, code: int)
  {
    Contains(rsp.contentType, "json") && rsp.statusCode == code
  }

  /** ParseEmailResponse: the 200, 400 and 500 slots. */
  function ParseEmailResponse(rsp: HttpResponse): (r: Result<EmailResponse, string>)
    ensures rsp.body.Err? ==> r == Err(rsp.body.error)
    ensures r.Ok? ==> r.value.body == rsp.body.value && r.value.http == Some(rsp)
    ensures r.Ok? ==> (r.value.json200.Some? <==> JsonWith(rsp, 200))
                      && (r.value.json400.Some? <==> JsonWith(rsp, 400))
                      && (r.value.json500.Some? <==> JsonWith(rsp, 500))
    ensures r.Ok? && r.value.json200.Some? ==> rsp.json.Ok? && r.value.json200.value == ToSubmitSuccess(rsp.json.value)
    ensures r.Ok? && r.value.json400.Some? ==> rsp.json.Ok? && r.value.json400.value == ToN400Error(rsp.json.value)
    ensures r.Ok? && r.value.json500.Some? ==> rsp.json.Ok? && r.value.json500.value == ToN500Error(rsp.json.value)
    ensures rsp.body.Ok? ==> (r.Err? <==> (JsonWith(rsp, 200) || JsonWith(rsp, 400) || JsonWith(rsp, 500)) && rsp.json.Err?)
  {
    match rsp.body
    case Err(e) => Err(e)
    case Ok(b) =>
      var response := EmailResponse(b, Some(rsp), None, None, None);
      if JsonWith(rsp, 200) then
        (match rsp.json case Err(e) => Err(e) case Ok(o) => Ok(response.(json200 := Some(ToSubmitSuccess(o)))))
      else if JsonWith(rsp, 400) then
        (match rsp.json case Err(e) => Err(e) case Ok(o) => Ok(response.(json400 := Some(ToN400Error(o)))))
      else if JsonWith(rsp, 500) then
        (match rsp.json case Err(e) => Err(e) case Ok(o) => Ok(response.(json500 := Some(ToN500Error(o)))))
      else Ok(response)
  }

  /** ParseEmailStatusResponse: the 200, 404 and 500 slots; a 404 error is decoded as an N400Error. */
  function ParseEmailStatusResponse(rsp: HttpResponse): (r: Result<EmailStatusResponse, string>)
    ensures rsp.body.Err? ==> r == Err(rsp.body.error)
    ensures r.Ok? ==> r.value.body == rsp.body.value && r.value.http == Some(rsp)
    ensures r.Ok? ==> (r.value.json200.Some? <==> JsonWith(rsp, 200))
                      && (r.value.json404.Some? <==> JsonWith(rsp, 404))
                      && (r.value.json500.Some? <==> JsonWith(rsp, 500))
    ensures r.Ok? && r.value.json200.Some? ==> rsp.json.Ok? && r.value.json200.value == ToStatusResult(rsp.json.value)
    ensures r.Ok? && r.value.json404.Some? ==> rsp.json.Ok? && r.value.json404.value == ToN400Error(rsp.json.value)
    ensures r.Ok? && r.value.json500.Some? ==> rsp.json.Ok? && r.value.json500.value == ToN500Error(rsp.json.value)
    ensures rsp.body.Ok? ==> (r.Err? <==> (JsonWith(rsp, 200) || JsonWith(rsp, 404) || JsonWith(rsp, 500)) && rsp.json.Err?)
  {
    match rsp.body
    case Err(e) => Err(e)
    case Ok(b) =>
      var response := EmailStatusResponse(b, Some(rsp), None, None, None);
      if JsonWith(rsp, 200) then
        (match rsp.json case Err(e) => Err(e) case Ok(o) => Ok(response.(json200 := Some(ToStatusResult(o)))))
      else if JsonWith(rsp, 404) then
        (match rsp.json case Err(e) => Err(e) case Ok(o) => Ok(response.(json404 := Some(ToN400Error(o)))))
      else if JsonWith(rsp, 500) then
        (match rsp.json case Err(e) => Err(e) case Ok(o) => Ok(response.(json500 := Some(ToN500Error(o)))))
      else Ok(response)
  }

  /** ParseContentPostResponse: the 200, 400 and 500 slots; a 400 error is decoded as an N500Error. */
  function ParseContentPostResponse(rsp: HttpResponse): (r: Result<ContentPostResponse, string>)
    ensures rsp.body.Err? ==> r == Err(rsp.body.error)
    ensures r.Ok? ==> r.value.body == rsp.body.value && r.value.http == Some(rsp)
    ensures r.Ok? ==> (r.value.json200.Some? <==> JsonWith(rsp, 200))
                      && (r.value.json400.Some? <==> JsonWith(rsp, 400))
                      && (r.value.json500.Some? <==> JsonWith(rsp, 500))
    ensures r.Ok? && r.value.json200.Some? ==> rsp.json.Ok? && r.value.json200.value == UploadResult(rsp.json.value)
    ensures r.Ok? && r.value.json400.Some? ==> rsp.json.Ok? && r.value.json400.value == ToN500Error(rsp.json.value)
    ensures r.Ok? && r.value.json500.Some? ==> rsp.json.Ok? && r.value.json500.value == ToN500Error(rsp.json.value)
    ensures rsp.body.Ok? ==> (r.Err? <==> (JsonWith(rsp, 200) || JsonWith(rsp, 400) || JsonWith(rsp, 500)) && rsp.json.Err?)
  {
    match rsp.body
    case Err(e) => Err(e)
    case Ok(b) =>
      var response := ContentPostResponse(b, Some(rsp), None, None, None);
      if JsonWith(rsp, 200) then
        (match rsp.json case Err(e) => Err(e) case Ok(o) => Ok(response.(json200 := Some(UploadResult(o)))))
      else if JsonWith(rsp, 400) then
        (match rsp.json case Err(e) => Err(e) case Ok(o) => Ok(response.(json400 := Some(ToN500Error(o)))))
      else if JsonWith(rsp, 500) then
        (match rsp.json case Err(e) => Err(e) case Ok(o) => Ok(response.(json500 := Some(ToN500Error(o)))))
      else Ok(response)
  }

  /** ParseStylePublishResponse: only the 400 and 500 slots; a 200 fills nothing and decodes nothing. */
  function ParseStylePublishResponse(rsp: HttpResponse): (r: Result<StylePublishResponse, string>)
    ensures rsp.body.Err? ==> r == Err(rsp.body.error)
    ensures r.Ok? ==> r.value.body == rsp.body.value && r.value.http == Some(rsp)
    ensures r.Ok? ==> (r.value.json400.Some? <==> JsonWith(rsp, 400))
                      && (r.value.json500.Some? <==> JsonWith(rsp, 500))
    ensures r.Ok? && r.value.json400.Some? ==> rsp.json.Ok? && r.value.json400.value == ToN500Error(rsp.json.value)
    ensures r.Ok? && r.value.json500.Some? ==> rsp.json.Ok? && r.value.json500.value == ToN500Error(rsp.json.value)
    ensures rsp.body.Ok? ==> (r.Err? <==> (JsonWith(rsp, 400) || JsonWith(rsp, 500)) && rsp.json.Err?)
  {
    match rsp.body
    case Err(e) => Err(e)
    case Ok(b) =>
      var response := StylePublishResponse(b, Some(rsp), None, None);
      if JsonWith(rsp, 400) then
        (match rsp.json case Err(e) => Err(e) case Ok(o) => Ok(response.(json400 := Some(ToN500Error(o)))))
      else if JsonWith(rsp, 500) then
        (match rsp.json case Err(e) => Err(e) case Ok(o) => Ok(response.(json500 := Some(ToN500Error(o)))))
      else Ok(response)
  }

  // ---------------------------------------------------------------------------------------------
  // StatusCode() and Status()
  // ---------------------------------------------------------------------------------------------

  /** StatusCode(): the HTTP status, or 0 without a response. */
  function StatusCode(http: Option<HttpResponse>): (code: int)
    ensures http.None? ==> code == 0
    ensures http.Some? ==> code == http.value.statusCode
  {
    if http.Some? then http.value.statusCode else 0
  }

  /** Status(): the status line, or http.StatusText(0), which is empty, without a response. */
  function Status(http: Option<HttpResponse>): (s: string)
    ensures http.None? ==> s == ""
    ensures http.Some? ==> s == http.value.status
  {
    if http.Some? then http.value.status else ""
  }

  // ---------------------------------------------------------------------------------------------
  // Properties
  // ---------------------------------------------------------------------------------------------

  /** At most one slot is filled, since the switch takes its first matching case only. */
  lemma AtMostOneSlot(rsp: HttpResponse)
    ensures var r := ParseEmailResponse(rsp);
            r.Ok? ==> (if r.value.json200.Some? then 1 else 0) + (if r.value.json400.Some? then 1 else 0)
                      + (if r.value.json500.Some? then 1 else 0) <= 1
    ensures var r := ParseEmailStatusResponse(rsp);
            r.Ok? ==> (if r.value.json200.Some? then 1 else 0) + (if r.value.json404.Some? then 1 else 0)
                      + (if r.value.json500.Some? then 1 else 0) <= 1
    ensures var r := ParseContentPostResponse(rsp);
            r.Ok? ==> (if r.value.json200.Some? then 1 else 0) + (if r.value.json400.Some? then 1 else 0)
                      + (if r.value.json500.Some? then 1 else 0) <= 1
    ensures var r := ParseStylePublishResponse(rsp);
            r.Ok? ==> (if r.value.json400.Some? then 1 else 0) + (if r.value.json500.Some? then 1 else 0) <= 1
  {
  }

  /** A response that is not JSON fills no slot and cannot fail to decode. */
  lemma NonJsonFillsNothing(rsp: HttpResponse)
    requires rsp.body.Ok? && !Contains(rsp.contentType, "json")
    ensures ParseEmailResponse(rsp) == Ok(EmailResponse(rsp.body.value, Some(rsp), None, None, None))
    ensures ParseEmailStatusResponse(rsp) == Ok(EmailStatusResponse(rsp.body.value, Some(rsp), None, None, None))
    ensures ParseContentPostResponse(rsp) == Ok(ContentPostResponse(rsp.body.value, Some(rsp), None, None, None))
    ensures ParseStylePublishResponse(rsp) == Ok(StylePublishResponse(rsp.body.value, Some(rsp), None, None))
  {
  }

  /**
   * The per-operation differences: EmailStatus has no 400 slot (a JSON 400 fills nothing), and
   * StylePublish has no 200 slot (a JSON 200 fills nothing, even with a body that does not decode).
   */
  lemma SlotDifferences(rsp: HttpResponse)
    requires rsp.body.Ok? && Contains(rsp.contentType, "json")
    ensures rsp.statusCode == 400 ==> ParseEmailStatusResponse(rsp) == Ok(EmailStatusResponse(rsp.body.value, Some(rsp), None, None, None))
    ensures rsp.statusCode == 200 ==> ParseStylePublishResponse(rsp) == Ok(StylePublishResponse(rsp.body.value, Some(rsp), None, None))
  {
  }

  /** The parsed response reports the status code of the HTTP response it was parsed from. */
  lemma StatusCodeOfParsed(rsp: HttpResponse)
    ensures ParseEmailResponse(rsp).Ok? ==> StatusCode(ParseEmailResponse(rsp).value.http) == rsp.statusCode
    ensures ParseEmailStatusResponse(rsp).Ok? ==> StatusCode(ParseEmailStatusResponse(rsp).value.http) == rsp.statusCode
    ensures ParseContentPostResponse(rsp).Ok? ==> StatusCode(ParseContentPostResponse(rsp).value.http) == rsp.statusCode
    ensures ParseStylePublishResponse(rsp).Ok? ==> StatusCode(ParseStylePublishResponse(rsp).value.http) == rsp.statusCode
  {
  }
}
