/** `pages/api/chat.js`: forwards one user message upstream and returns the
    reply text. */
module ChatApi {
  import opened Gemini

  const Instruction := "Answer in maximum 150 words, but concise when you can:"

  /** The reply used when the upstream answer carries no usable text. */
  const NoReply := "No reply from Gemini API"

  /** The request: its HTTP method (`req.method`) and `req.body.message`. */
  datatype ChatRequest = ChatRequest(verb: string, message: string)

  /** The text sent upstream for a message. */
  function Prompt(message: string): (p: string)
    ensures |p| == |Instruction| + 2 + |message|
    ensures p[..|Instruction| + 2] == Instruction + "\n\n"
    ensures p[|Instruction| + 2..] == message
  {
    WithInstruction(Instruction, message)
  }

  /** The first part exists and its text is a non-empty string. */
  predicate HasReplyText(data: Payload) {
    HasFirstPart(data) && FirstPart(data).text.Some? && FirstPart(data).text.value != ""
  }

  /** The reply of a 2xx answer: the first part's text, untrimmed, when it is
      there and non-empty (`text || reply`), else the fallback. */
  function ReplyOf(data: Payload): (r: string)
    ensures r != ""
    ensures HasReplyText(data) ==> r == FirstPart(data).text.value
    ensures !HasReplyText(data) ==> r == NoReply
  {
    if HasReplyText(data) then FirstPart(data).text.value else NoReply
  }

  /** `handler(req, res)`, with the upstream call given as `fetch`, the map
      from the prompt sent to what came back. */
  function Handle(req: ChatRequest, fetch: string -> Upstream): (r: HttpResponse)
    ensures req.verb != "POST" ==> r == MethodNotAllowed
    ensures var u := fetch(Prompt(req.message));
      req.verb == "POST" ==>
        && (u.Threw? ==> r == InternalError)
        && (u.Answered? && !IsOk(u.status) ==>
              r == HttpResponse(u.status, ErrorBody(UpstreamErrorOf(u.data))))
        && (u.Answered? && IsOk(u.status) ==> r == HttpResponse(200, ReplyBody(ReplyOf(u.data))))
    // a 2xx status always carries a non-empty reply, and nothing else does
    ensures IsOk(r.status) <==> r.body.ReplyBody?
    ensures r.body.ReplyBody? ==> r.status == 200 && r.body.reply != ""
  {
    if req.verb != "POST" then MethodNotAllowed
    else
      match fetch(Prompt(req.message))
      case Threw => InternalError
      case Answered(status, data) =>
        if !IsOk(status) then HttpResponse(status, ErrorBody(UpstreamErrorOf(data)))
        else HttpResponse(200, ReplyBody(ReplyOf(data)))
  }

  /** The handler consults the upstream API on the prompt of the request's
      message and on nothing else. */
  lemma HandleSeesOnlyPrompt(req: ChatRequest, f: string -> Upstream, g: string -> Upstream)
    requires f(Prompt(req.message)) == g(Prompt(req.message))
    ensures Handle(req, f) == Handle(req, g)
  {
  }
}
