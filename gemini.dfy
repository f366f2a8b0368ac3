/** What both endpoints receive from the upstream generative-language API,
    and the HTTP responses they send back. */
module Gemini {
  import opened Optional

  /** A JSON value, for the `error` property passed through to the client. */
  datatype Json =
    | JNull
    | JBool(b: bool)
    | JNumber(n: int)
    | JString(s: string)
    | JArray(items: seq<Json>)
    | JObject(members: seq<(string, Json)>)

  /** JavaScript truthiness of a property that may be undefined. */
  predicate Truthy(v: Option<Json>)
    ensures Truthy(v) ==> v.Some? && v.value != JNull
    ensures v == Some(JString("")) || v == Some(JBool(false)) || v == Some(JNumber(0)) ==> !Truthy(v)
    ensures v.Some? && (v.value.JArray? || v.value.JObject?) ==> Truthy(v)
  {
    match v
    case None => false
    case Some(JNull) => false
    case Some(JBool(b)) => b
    case Some(JNumber(n)) => n != 0
    case Some(JString(s)) => s != ""
    case Some(_) => true
  }

  /** The parsed upstream body:
      `{ error?, candidates?: [{ content?: { parts?: [{ text? }] } }] }`. */
  datatype Part = Part(text: Option<string>)
  datatype Content = Content(parts: Option<seq<Part>>)
  datatype Candidate = Candidate(content: Option<Content>)
  datatype Payload = Payload(error: Option<Json>, candidates: Option<seq<Candidate>>)

  /** The outcome of `fetch` followed by `response.json()`: either one of them
      threw (network failure, a body that is not JSON), or a status and body. */
  datatype Upstream = Threw | Answered(status: int, data: Payload)

  /** The text both endpoints send upstream: their fixed instruction, a
      blank line, then the text they were given, unaltered. */
  function WithInstruction(instruction: string, text: string): (p: string)
    ensures |p| == |instruction| + 2 + |text|
    ensures p[..|instruction| + 2] == instruction + "\n\n"
    ensures p[|instruction| + 2..] == text
  {
    instruction + "\n\n" + text
  }

  /** Under one instruction, different texts give different prompts: the
      text reaches the upstream API unaltered. */
  lemma WithInstructionInjective(instruction: string, a: string, b: string)
    requires WithInstruction(instruction, a) == WithInstruction(instruction, b)
    ensures a == b
  {
    assert a == WithInstruction(instruction, a)[|instruction| + 2..];
  }

  /** `response.ok` */
  predicate IsOk(status: int) {
    200 <= status <= 299
  }

  /** The guard both endpoints place before reading the first part: candidates,
      the first candidate's content and its parts are all present, and the
      two arrays are non-empty. */
  predicate HasFirstPart(data: Payload) {
    && data.candidates.Some?
    && |data.candidates.value| > 0
    && data.candidates.value[0].content.Some?
    && data.candidates.value[0].content.value.parts.Some?
    && |data.candidates.value[0].content.value.parts.value| > 0
  }

  /** `data.candidates[0].content.parts[0]` */
  function FirstPart(data: Payload): (p: Part)
    requires HasFirstPart(data)
    ensures p in data.candidates.value[0].content.value.parts.value
  {
    data.candidates.value[0].content.value.parts.value[0]
  }

  /** `data.error || "Gemini API error"` */
  function UpstreamErrorOf(data: Payload): (e: Json)
    ensures Truthy(data.error) ==> Some(e) == data.error
    ensures !Truthy(data.error) ==> e == JString("Gemini API error")
  {
    if Truthy(data.error) then data.error.value else JString("Gemini API error")
  }

  datatype Body = ErrorBody(error: Json) | ReplyBody(reply: string) | SummaryBody(summary: string)
  datatype HttpResponse = HttpResponse(status: int, body: Body)

  const MethodNotAllowed := HttpResponse(405, ErrorBody(JString("Method Not Allowed")))
  const InternalError := HttpResponse(500, ErrorBody(JString("Internal server error")))
}
