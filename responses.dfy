/** `SemanticScholarAPI._handle_response`: turning an HTTP response into
    the parsed body or a classified `APIError`. Status codes follow
    section 15 of RFC 9110 (200, 400, 404) and section 4 of RFC 6585
    (429). */
module Responses {
  import opened Dicts
  import opened Decimal
  import opened Errors

  const NotFound := "NOT_FOUND"
  const BadRequest := "BAD_REQUEST"
  const RateLimited := "RATE_LIMITED"
  const ApiErrorCode := "API_ERROR"

  const BadRequestFallback := "Bad request"
  const UnknownStatusPrefix := "API returned status "

  /** An HTTP response: its status, its body if the body parses as JSON
      (what `response.json()` would return), and its headers. */
  datatype Response = Response(status: int, body: Option<Json>, headers: map<string, string>)

  /** What `_handle_response` does: return the parsed body, raise an
      `APIError`, or let the JSON decoding error of `response.json()`
      escape (a 200 whose body is not JSON). */
  datatype Handled = Parsed(body: Json) | Raised(error: ApiError) | BodyNotJson

  /** The message of a 400 error: `error_data.get("message", "Bad request")`
      when the body is a JSON object; "Bad request" when the body is not
      JSON or is JSON without `.get` (the `except Exception` branch). */
  function BadRequestMessage(body: Option<Json>): (m: Json)
    ensures body.Some? && body.value.JObject? && "message" in body.value.members
            ==> m == body.value.members["message"]
    ensures !(body.Some? && body.value.JObject? && "message" in body.value.members)
            ==> m == JString(BadRequestFallback)
  {
    match body
    case Some(JObject(members)) =>
      if "message" in members then members["message"] else JString(BadRequestFallback)
    case _ => JString(BadRequestFallback)
  }

  function HandleResponse(resp: Response): (h: Handled)
    ensures resp.status == 200 <==> !h.Raised?
    ensures resp.status == 200 ==> h == if resp.body.Some? then Parsed(resp.body.value) else BodyNotJson
    ensures h.Raised? ==> h.error.statusCode == Some(resp.status)
    ensures h.Raised? ==> h.error.code in {NotFound, BadRequest, RateLimited, ApiErrorCode}
    ensures h.Raised? ==> (HasSuggestion(h.error) <==> resp.status in {400, 404, 429})
    ensures resp.status == 404 ==> h.error.message == JString("Resource not found")
    ensures resp.status == 400 ==> h.error.message == BadRequestMessage(resp.body)
    ensures resp.status == 429 ==> h.error.message == JString("Rate limit exceeded")
  {
    if resp.status == 200 then
      if resp.body.Some? then Parsed(resp.body.value) else BodyNotJson
    else if resp.status == 404 then
      Raised(ApiError(NotFound, JString("Resource not found"),
                      Some("Check the ID format or try searching instead"), Some(404)))
    else if resp.status == 400 then
      Raised(ApiError(BadRequest, BadRequestMessage(resp.body),
                      Some("Check query parameters and field names"), Some(400)))
    else if resp.status == 429 then
      Raised(ApiError(RateLimited, JString("Rate limit exceeded"),
                      Some("Wait a moment or use an API key for higher limits"), Some(429)))
    else
      Raised(ApiError(ApiErrorCode, JString(UnknownStatusPrefix + DecimalString(resp.status)),
                      None, Some(resp.status)))
  }

  /** Each error code is raised for exactly one status, or, for API_ERROR,
      for exactly the statuses without a code of their own. */
  lemma ErrorCodeDeterminesStatus(resp: Response)
    requires HandleResponse(resp).Raised?
    ensures HandleResponse(resp).error.code == NotFound <==> resp.status == 404
    ensures HandleResponse(resp).error.code == BadRequest <==> resp.status == 400
    ensures HandleResponse(resp).error.code == RateLimited <==> resp.status == 429
    ensures HandleResponse(resp).error.code == ApiErrorCode <==> resp.status !in {400, 404, 429}
  {
  }

  /** The message of an API_ERROR is "API returned status " followed by
      `str(status)`: a minus sign for a negative status, then its digits
      without leading zeros, which read back as the status code. */
  lemma UnknownStatusMessage(resp: Response)
    requires resp.status !in {200, 400, 404, 429}
    ensures var e := HandleResponse(resp).error;
      && e.message.JString?
      && |e.message.s| > |UnknownStatusPrefix|
      && e.message.s[..|UnknownStatusPrefix|] == UnknownStatusPrefix
      && e.message.s[|UnknownStatusPrefix|..] == DecimalString(resp.status)
      && (resp.status >= 0 ==> e.message.s[|UnknownStatusPrefix|] != '0' || resp.status == 0)
      && ParseDecimal(e.message.s[|UnknownStatusPrefix|..]) == Some(resp.status)
      && e.suggestion == None
  {
    var digits := DecimalString(resp.status);
    DecimalRoundTrip(resp.status);
    assert (UnknownStatusPrefix + digits)[|UnknownStatusPrefix|..] == digits;
  }

  /** A 400 uses the body's "message" member as it is when the body is a
      JSON object that has one, and "Bad request" for every other body: no
      body, a body that is not JSON, JSON that is not an object, or an
      object without "message". */
  lemma BadRequestMessageChoice(resp: Response)
    requires resp.status == 400
    ensures var e := HandleResponse(resp).error;
      && e.code == BadRequest && e.statusCode == Some(400)
      && (resp.body.None? ==> e.message == JString(BadRequestFallback))
      && (resp.body.Some? && resp.body.value.JObject? && "message" in resp.body.value.members
          ==> e.message == resp.body.value.members["message"])
      && (resp.body.Some? && !resp.body.value.JObject? ==> e.message == JString(BadRequestFallback))
      && (resp.body.Some? && resp.body.value.JObject? && "message" !in resp.body.value.members
          ==> e.message == JString(BadRequestFallback))
  {
  }
}
