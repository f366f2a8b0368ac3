/** `pages/api/summarize.js`: turns a conversation into a short title. */
module SummarizeApi {
  import opened Optional
  import opened Messages
  import opened Gemini
  import JsText

  const Instruction := "Provide a short, concise title (MAX SEVEN WORDS, NO BOLDING) for the following conversation:"

  /** The hard bound on the conversation text sent upstream. */
  const MaxChars := 1000

  /** The title used when the upstream answer has no first part. */
  const Untitled := "Untitled Conversation"

  /** The request: its HTTP method (`req.method`) and `req.body.messages`. */
  datatype SummarizeRequest = SummarizeRequest(verb: string, messages: seq<Message>)

  /** One message as a line: "User: " for the sender "user", "Bot: " for any
      other sender. */
  function Line(m: Message): (l: string)
    ensures var tag := if m.sender == UserSender then "User: " else "Bot: ";
      |l| == |tag| + |m.text| && l[..|tag|] == tag && l[|tag|..] == m.text
  {
    if m.sender == UserSender then "User: " + m.text else "Bot: " + m.text
  }

  /** `messages.map(Line)` */
  function Lines(ms: seq<Message>): (ls: seq<string>)
    ensures |ls| == |ms|
    ensures forall i :: 0 <= i < |ms| ==> ls[i] == Line(ms[i])
  {
    if ms == [] then [] else [Line(ms[0])] + Lines(ms[1..])
  }

  /** `lines.join("\n")` */
  function Join(lines: seq<string>): (t: string)
    ensures |lines| == 0 ==> t == ""
    ensures |lines| > 0 ==> lines[0] <= t
  {
    if |lines| == 0 then ""
    else if |lines| == 1 then lines[0]
    else lines[0] + "\n" + Join(lines[1..])
  }

  /** `conversationText` */
  function ConversationText(ms: seq<Message>): (t: string)
    ensures ms == [] ==> t == ""
    ensures ms != [] ==> Line(ms[0]) <= t
  {
    Join(Lines(ms))
  }

  /** `conversationText.slice(0, 1000)` */
  function Limit(t: string): (r: string)
    ensures |r| <= MaxChars
    ensures r <= t
    ensures |t| <= MaxChars ==> r == t
    ensures |t| > MaxChars ==> |r| == MaxChars
  {
    if |t| <= MaxChars then t else t[..MaxChars]
  }

  /** The text sent upstream for a conversation: the instruction, a blank
      line, and the first `MaxChars` characters of the conversation text. */
  function Prompt(ms: seq<Message>): (p: string)
    ensures |Instruction| + 2 <= |p| <= |Instruction| + 2 + MaxChars
    ensures p[..|Instruction| + 2] == Instruction + "\n\n"
    ensures p[|Instruction| + 2..] == Limit(ConversationText(ms))
  {
    WithInstruction(Instruction, Limit(ConversationText(ms)))
  }

  /** The summary of a 2xx answer: the trimmed first-part text, or the
      fallback title when there is no first part. `None` is the TypeError
      `.trim()` throws when the first part has no text. */
  function SummaryOf(data: Payload): (r: Option<string>)
    ensures !HasFirstPart(data) ==> r == Some(Untitled)
    ensures HasFirstPart(data) && FirstPart(data).text.None? ==> r == None
    ensures HasFirstPart(data) && FirstPart(data).text.Some? ==>
      r.Some? && JsText.TrimmedAt(r.value, FirstPart(data).text.value,
                                  JsText.LeadingCount(FirstPart(data).text.value))
  {
    if !HasFirstPart(data) then Some(Untitled)
    else match FirstPart(data).text
      case None => None
      case Some(t) => Some(JsText.Trim(t))
  }

  /** `handler(req, res)`, with the upstream call given as `fetch`, the map
      from the prompt sent to what came back. */
  function Handle(req: SummarizeRequest, fetch: string -> Upstream): (r: HttpResponse)
    ensures req.verb != "POST" ==> r == MethodNotAllowed
    ensures var u := fetch(Prompt(req.messages));
      req.verb == "POST" ==>
        && (u.Threw? ==> r == InternalError)
        && (u.Answered? && !IsOk(u.status) ==>
              r == HttpResponse(u.status, ErrorBody(UpstreamErrorOf(u.data))))
        && (u.Answered? && IsOk(u.status) && SummaryOf(u.data).None? ==> r == InternalError)
        && (u.Answered? && IsOk(u.status) && SummaryOf(u.data).Some? ==>
              r == HttpResponse(200, SummaryBody(SummaryOf(u.data).value)))
    // a 2xx status always carries a summary, and nothing else does
    ensures IsOk(r.status) <==> r.body.SummaryBody?
    ensures r.body.SummaryBody? ==> r.status == 200
  {
    if req.verb != "POST" then MethodNotAllowed
    else
      match fetch(Prompt(req.messages))
      case Threw => InternalError
      case Answered(status, data) =>
        if !IsOk(status) then HttpResponse(status, ErrorBody(UpstreamErrorOf(data)))
        else match SummaryOf(data)
          case None => InternalError
          case Some(s) => HttpResponse(200, SummaryBody(s))
  }

  /** The handler consults the upstream API on the prompt built from the
      request's messages and on nothing else. */
  lemma HandleSeesOnlyPrompt(req: SummarizeRequest, f: string -> Upstream, g: string -> Upstream)
    requires f(Prompt(req.messages)) == g(Prompt(req.messages))
    ensures Handle(req, f) == Handle(req, g)
  {
  }

  /** A summary that reaches the client starts and ends with a character that
      is not white space. */
  lemma SummaryIsTrimmed(req: SummarizeRequest, fetch: string -> Upstream)
    requires Handle(req, fetch).body.SummaryBody?
    ensures var s := Handle(req, fetch).body.summary;
      s != "" ==> !JsText.IsTrimmable(s[0]) && !JsText.IsTrimmable(s[|s| - 1])
  {
  }

  /** The text of a concatenation is the two texts on either side of one
      newline: `join` keeps the messages in order. */
  lemma {:induction false} JoinAppend(xs: seq<string>, ys: seq<string>)
    requires |xs| > 0 && |ys| > 0
    ensures Join(xs + ys) == Join(xs) + "\n" + Join(ys)
    decreases |xs|
  {
    if |xs| == 1 {
      assert (xs + ys)[1..] == ys;
    } else {
      assert (xs + ys)[1..] == xs[1..] + ys;
      JoinAppend(xs[1..], ys);
    }
  }

  lemma {:induction false} LinesAppend(xs: seq<Message>, ys: seq<Message>)
    ensures Lines(xs + ys) == Lines(xs) + Lines(ys)
  {
  }

  /** Appending messages appends their lines after a newline. */
  lemma ConversationTextAppend(xs: seq<Message>, ys: seq<Message>)
    requires |xs| > 0 && |ys| > 0
    ensures ConversationText(xs + ys) == ConversationText(xs) + "\n" + ConversationText(ys)
  {
    LinesAppend(xs, ys);
    JoinAppend(Lines(xs), Lines(ys));
  }

  /** The oldest content has priority: once a conversation's text reaches
      the limit, later messages change nothing that is sent upstream. */
  lemma LaterMessagesAreCutOff(xs: seq<Message>, ys: seq<Message>)
    requires |xs| > 0 && |ConversationText(xs)| >= MaxChars
    ensures Limit(ConversationText(xs + ys)) == Limit(ConversationText(xs))
  {
    if ys == [] {
      assert xs + ys == xs;
    } else {
      ConversationTextAppend(xs, ys);
    }
  }

  /** `text.split("\n")`, the inverse of `Join` on lines without newlines. */
  function Split(t: string): (parts: seq<string>)
    ensures |parts| > 0
    decreases |t|
  {
    if t == [] then [""]
    else if t[0] == '\n' then [""] + Split(t[1..])
    else var rest := Split(t[1..]); [[t[0]] + rest[0]] + rest[1..]
  }

  lemma {:induction false} SplitSingle(a: string)
    requires '\n' !in a
    ensures Split(a) == [a]
    decreases |a|
  {
    if a != [] {
      SplitSingle(a[1..]);
      assert [a[0]] + a[1..] == a;
    }
  }

  lemma {:induction false} SplitAfterLine(a: string, b: string)
    requires '\n' !in a
    ensures Split(a + "\n" + b) == [a] + Split(b)
    decreases |a|
  {
    if a == [] {
      assert a + "\n" + b == "\n" + b;
      assert ("\n" + b)[1..] == b;
    } else {
      assert (a + "\n" + b)[1..] == a[1..] + "\n" + b;
      SplitAfterLine(a[1..], b);
      assert [a[0]] + a[1..] == a;
    }
  }

  /** Join then split gives the lines back, when none holds a newline. */
  lemma {:induction false} SplitJoin(lines: seq<string>)
    requires |lines| > 0
    requires forall i :: 0 <= i < |lines| ==> '\n' !in lines[i]
    ensures Split(Join(lines)) == lines
    decreases |lines|
  {
    if |lines| == 1 {
      SplitSingle(lines[0]);
    } else {
      SplitAfterLine(lines[0], Join(lines[1..]));
      SplitJoin(lines[1..]);
      assert [lines[0]] + lines[1..] == lines;
    }
  }

  lemma LineHasNoNewline(m: Message)
    requires '\n' !in m.text
    ensures '\n' !in Line(m)
  {
    var prefix := if m.sender == UserSender then "User: " else "Bot: ";
    assert '\n' !in prefix;
    assert Line(m) == prefix + m.text;
  }

  /** The conversation text holds each message's line, in order, and nothing
      else, when no message text holds a newline. */
  lemma ConversationTextLines(ms: seq<Message>)
    requires |ms| > 0
    requires forall i :: 0 <= i < |ms| ==> '\n' !in ms[i].text
    ensures Split(ConversationText(ms)) == Lines(ms)
  {
    var ls := Lines(ms);
    forall i | 0 <= i < |ls| ensures '\n' !in ls[i] {
      LineHasNoNewline(ms[i]);
    }
    SplitJoin(ls);
  }
}
