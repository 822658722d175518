/** `APIError` (src/s2cli/api/client.py) and its JSON serialisation. */
module Errors {
  import opened Dicts

  const Documentation := "https://api.semanticscholar.org/api-docs/"

  /** An `APIError` as its constructor stores it. The message is a JSON
      value: on a 400 response it is copied from the body, whatever its
      type there. */
  datatype ApiError = ApiError(
    code: string,
    message: Json,
    suggestion: Option<string>,
    statusCode: Option<int>)

  /** `if self.suggestion:` — None and "" are falsy. */
  predicate HasSuggestion(e: ApiError)
  {
    e.suggestion.Some? && e.suggestion.value != ""
  }

  /** `if self.status_code:` — None and 0 are falsy. */
  predicate HasStatusCode(e: ApiError)
  {
    e.statusCode.Some? && e.statusCode.value != 0
  }

  /** The members of the "error" object of a serialised error. */
  function ErrorMembers(d: Json): map<string, Json>
  {
    if d.JObject? && "error" in d.members && d.members["error"].JObject?
    then d.members["error"].members
    else map[]
  }

  /** `APIError.to_dict`: the "error" record is built, then the optional
      entries are stored into it one at a time. */
  method ToDict(e: ApiError) returns (d: Json)
    ensures d.JObject? && d.members.Keys == {"error"} && d.members["error"].JObject?
    ensures ErrorMembers(d).Keys ==
      {"code", "message", "documentation"}
      + (if HasSuggestion(e) then {"suggestion"} else {})
      + (if HasStatusCode(e) then {"status_code"} else {})
    ensures ErrorMembers(d)["code"] == JString(e.code)
    ensures ErrorMembers(d)["message"] == e.message
    ensures ErrorMembers(d)["documentation"] == JString(Documentation)
    ensures HasSuggestion(e) ==> ErrorMembers(d)["suggestion"] == JString(e.suggestion.value)
    ensures HasStatusCode(e) ==> ErrorMembers(d)["status_code"] == JNumber(e.statusCode.value)
  {
    var error := map["code" := JString(e.code), "message" := e.message];
    if HasSuggestion(e) {
      error := error["suggestion" := JString(e.suggestion.value)];
    }
    if HasStatusCode(e) {
      error := error["status_code" := JNumber(e.statusCode.value)];
    }
    error := error["documentation" := JString(Documentation)];
    d := JObject(map["error" := JObject(error)]);
  }
}
