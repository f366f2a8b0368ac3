/** How the component's two requests meet the two endpoints. `axios` resolves
    for a 2xx status and rejects otherwise, so every error response of an
    endpoint reaches the component as a failed request. */
module Wiring {
  import opened Messages
  import opened Gemini
  import ChatApi
  import SummarizeApi
  import JsText
  import opened ChatUI

  /** The outcome of `axios.post("/api/chat", ...)`. A 2xx response that is
      not a reply does not arise from the endpoint (see `ChatApi.Handle`). */
  function ChatOutcomeOf(resp: HttpResponse): (o: ChatOutcome)
    ensures !IsOk(resp.status) ==> o == ChatFailed
    ensures IsOk(resp.status) && resp.body.ReplyBody? ==> o == Replied(resp.body.reply)
  {
    if IsOk(resp.status) && resp.body.ReplyBody? then Replied(resp.body.reply) else ChatFailed
  }

  /** The outcome of `axios.post("/api/summarize", ...)`. A 2xx response
      without a `summary` leaves `response.data.summary` undefined, which the
      component's `||` turns into the fallback title, as for an empty one. */
  function SummaryOutcomeOf(resp: HttpResponse): (o: SummaryOutcome)
    ensures !IsOk(resp.status) ==> o == SummaryFailed
    ensures IsOk(resp.status) && resp.body.SummaryBody? ==> o == Summarized(resp.body.summary)
    ensures IsOk(resp.status) && !resp.body.SummaryBody? ==> Title(o) == UntitledTitle
  {
    if !IsOk(resp.status) then SummaryFailed
    else if resp.body.SummaryBody? then Summarized(resp.body.summary)
    else Summarized("")
  }

  /** The chat service the component talks to, for a given upstream API: it
      fails when the upstream call throws. */
  function ChatService(fetch: string -> Upstream): (s: string -> ChatOutcome)
    ensures forall message :: fetch(ChatApi.Prompt(message)).Threw? ==> s(message) == ChatFailed
  {
    message => ChatOutcomeOf(ChatApi.Handle(ChatApi.ChatRequest("POST", message), fetch))
  }

  /** The summarize service the component talks to, for a given upstream
      API: it fails when the upstream call throws. */
  function SummaryService(fetch: string -> Upstream): (s: seq<Message> -> SummaryOutcome)
    ensures forall ms :: fetch(SummarizeApi.Prompt(ms)).Threw? ==> s(ms) == SummaryFailed
  {
    ms => SummaryOutcomeOf(SummarizeApi.Handle(SummarizeApi.SummarizeRequest("POST", ms), fetch))
  }

  /** The bot message a send appends, whatever the upstream API does. It is
      `BotMessage(ChatService(fetch)(message))` spelled out, which
      `ServiceReply` states; the case split is stated here because going
      through the service's closure makes it costly to prove. */
  function BotReply(fetch: string -> Upstream, message: string): (m: Message)
    ensures m.sender == BotSender && m.text != ""
    ensures var u := fetch(ChatApi.Prompt(message));
      && (u.Threw? || (u.Answered? && !IsOk(u.status)) ==> m.text == ErrorReply)
      && (u.Answered? && IsOk(u.status) ==> m.text == ChatApi.ReplyOf(u.data))
  {
    var req := ChatApi.ChatRequest("POST", message);
    assert req.verb == "POST";
    BotMessage(ChatOutcomeOf(ChatApi.Handle(req, fetch)))
  }

  /** The bot message `Component.SendMessage(ChatService(fetch))` appends is
      `BotReply(fetch, input)`. */
  lemma ServiceReply(fetch: string -> Upstream, message: string)
    ensures BotMessage(ChatService(fetch)(message)) == BotReply(fetch, message)
  {
  }

  /** An upstream answer without the expected reply shape shows the
      fallback reply as a bot message. */
  lemma MissingReplyShowsFallback(fetch: string -> Upstream, message: string)
    requires var u := fetch(ChatApi.Prompt(message));
      u.Answered? && IsOk(u.status) && !HasFirstPart(u.data)
    ensures BotReply(fetch, message).text == ChatApi.NoReply
  {
  }

  /** The title `Component.NewSession(SummaryService(fetch), ...)` gives an
      archived conversation, whatever the upstream API does. */
  function ArchiveTitle(fetch: string -> Upstream, ms: seq<Message>): (t: string)
    ensures t != ""
    ensures var u := fetch(SummarizeApi.Prompt(ms));
      && (u.Threw? || (u.Answered? && !IsOk(u.status)) ==> t == ErrorTitle)
      && (u.Answered? && IsOk(u.status) && !HasFirstPart(u.data) ==> t == UntitledTitle)
      && (u.Answered? && IsOk(u.status) && HasFirstPart(u.data) && FirstPart(u.data).text.None? ==>
            t == ErrorTitle)
      && (u.Answered? && IsOk(u.status) && HasFirstPart(u.data) && FirstPart(u.data).text.Some? ==>
            t == if JsText.Trim(FirstPart(u.data).text.value) == "" then UntitledTitle
                 else JsText.Trim(FirstPart(u.data).text.value))
  {
    var req := SummarizeApi.SummarizeRequest("POST", ms);
    assert req.verb == "POST";
    assert SummaryService(fetch)(ms) == SummaryOutcomeOf(SummarizeApi.Handle(req, fetch));
    Title(SummaryService(fetch)(ms))
  }
}
