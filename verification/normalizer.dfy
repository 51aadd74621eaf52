/** The response normaliser `Notion.response_or_error`: the single place where
    the client tells a failed call from a successful one. */
module Normalizer {
  import opened PyJson

  /** What the client sees of an HTTP response: its status code and its body
      already decoded from JSON. */
  datatype Response = Response(status: int, body: Json)

  /** The error record `{"code": code, "error": error}` that stands for a failure. */
  function ErrorRecord(code: int, error: Json): Json
  {
    JObject(map["code" := JInt(code), "error" := error])
  }

  /** A value of the error-record shape, read back into its code and error. */
  function ReadErrorRecord(v: Json): (r: Option<(int, Json)>)
    ensures r.Some? ==> v == ErrorRecord(r.value.0, r.value.1)
  {
    if v.JObject? && v.fields.Keys == {"code", "error"} && v.fields["code"].JInt?
    then Some((v.fields["code"].i, v.fields["error"]))
    else None
  }

  lemma ReadErrorRecordInverse(code: int, error: Json)
    ensures ReadErrorRecord(ErrorRecord(code, error)) == Some((code, error))
  {
  }

  /** Python's substring test `needle in hay`. */
  predicate Contains(hay: string, needle: string)
    decreases |hay|
  {
    needle <= hay || (|hay| > 0 && Contains(hay[1..], needle))
  }

  /** Python's `"message" in body`: a key test on a dict, a membership test on
      a list, a substring test on a string, and a TypeError on anything else. */
  function MessageIn(body: Json): (r: Outcome<bool>)
    ensures r.Value? <==> body.JObject? || body.JArray? || body.JString?
    ensures r.Raised? ==> r.fault == TypeError
    ensures body.JObject? ==> r == Value("message" in body.fields)
    ensures r == Value(true) ==> (Subscript(body, Field("message")).Value? <==> body.JObject?)
  {
    match body
    case JObject(m) => Value("message" in m)
    case JArray(xs) => Value(JString("message") in xs)
    case JString(s) => Value(Contains(s, "message"))
    case _ => Raised(TypeError)
  }

  /** `response_or_error(response, key)`. A body with a `message` field is a
      failure and becomes the error record carrying the status code; otherwise
      the value at `key` is returned when a key is given (a missing key raises),
      and the body itself when none is. */
  function ResponseOrError(resp: Response, key: Option<string>): (r: Outcome<Json>)
    ensures resp.body.JObject? && "message" in resp.body.fields ==>
      r == Value(ErrorRecord(resp.status, resp.body.fields["message"]))
    ensures resp.body.JObject? && "message" !in resp.body.fields && key.Some? ==>
      r == (if key.value in resp.body.fields then Value(resp.body.fields[key.value])
            else Raised(KeyError(Field(key.value))))
    ensures resp.body.JObject? && "message" !in resp.body.fields && key.None? ==>
      r == Value(resp.body)
    ensures !resp.body.JObject? ==>
      r == (if key.None? && MessageIn(resp.body) == Value(false) then Value(resp.body)
            else Raised(TypeError))
  {
    match MessageIn(resp.body)
    case Raised(f) => Raised(f)
    case Value(hasMessage) =>
      if hasMessage then
        match Subscript(resp.body, Field("message"))
        case Raised(f) => Raised(f)
        case Value(message) => Value(ErrorRecord(resp.status, message))
      else if key.Some? then Subscript(resp.body, Field(key.value))
      else Value(resp.body)
  }

  /** A failure is reported the same way whatever result key the caller asked for. */
  lemma FailureIgnoresKey(resp: Response, k1: Option<string>, k2: Option<string>)
    requires resp.body.JObject? && "message" in resp.body.fields
    ensures ResponseOrError(resp, k1) == ResponseOrError(resp, k2)
    ensures ReadErrorRecord(ResponseOrError(resp, k1).value) ==
      Some((resp.status, resp.body.fields["message"]))
  {
  }

  /** An error record has no `message` field, so passing one through the
      normaliser again with no key returns it unchanged. */
  lemma ErrorRecordPassesThrough(status: int, code: int, error: Json)
    ensures ResponseOrError(Response(status, ErrorRecord(code, error)), None) ==
      Value(ErrorRecord(code, error))
  {
  }

  /** A 401 answer `{"object": "error", "message": "Unauthorized"}` normalises to
      `{"code": 401, "error": "Unauthorized"}`. */
  lemma UnauthorizedExample()
    ensures ResponseOrError(
      Response(401, JObject(map["object" := JString("error"), "message" := JString("Unauthorized")])),
      None) == Value(JObject(map["code" := JInt(401), "error" := JString("Unauthorized")]))
  {
  }

  /** The heuristic misfires: a successful payload that happens to carry a
      `message` field is reported as an error with status 200. */
  lemma MessageFieldFalsePositive(text: Json)
    ensures ResponseOrError(
      Response(200, JObject(map["results" := JArray([]), "message" := text])),
      Some("results")) == Value(ErrorRecord(200, text))
  {
  }

  /** A body that is a string mentioning "message" passes the `in` test and then
      raises a TypeError at `response_json["message"]`. */
  lemma StringBodyMentioningMessage(status: int, key: Option<string>)
    ensures ResponseOrError(Response(status, JString("no message")), key) == Raised(TypeError)
  {
  }
}
