/** `components/ChatUI.js`: the chat component's session state. Each handler
    is one atomic step that also runs the effects it triggers: the two
    storage writes and the copy of `messages` into `currentConversation`
    while the current tab is shown. */
module ChatUI {
  import opened Optional
  import opened Messages
  import JsText

  /** `activeTab`: the string "current" or the id of an archived session. */
  datatype Tab = Current | Archived(id: int)

  /** An archived conversation. The id comes from the clock and is not
      guaranteed unique. */
  datatype Session = Session(id: int, timestamp: string, title: string, messages: seq<Message>)

  /** What `axios.post("/api/chat", ...)` gave: the reply, or a rejection. */
  datatype ChatOutcome = Replied(reply: string) | ChatFailed

  /** What `axios.post("/api/summarize", ...)` gave: the summary, or a rejection. */
  datatype SummaryOutcome = Summarized(summary: string) | SummaryFailed

  const ErrorReply := "Error getting response."
  const UntitledTitle := "Untitled Conversation"
  const ErrorTitle := "Error Summarizing"

  /** The bot message a send appends: the reply, or the error placeholder. */
  function BotMessage(o: ChatOutcome): (m: Message)
    ensures m.sender == BotSender
    ensures o.Replied? ==> m.text == o.reply
    ensures o.ChatFailed? ==> m.text == ErrorReply
  {
    match o
    case Replied(reply) => Message(reply, BotSender)
    case ChatFailed => Message(ErrorReply, BotSender)
  }

  /** The title of an archived session: the summary when it is non-empty
      (`summary || "Untitled Conversation"`), the error title on failure. */
  function Title(o: SummaryOutcome): (t: string)
    ensures t != ""
    ensures o.Summarized? && o.summary != "" ==> t == o.summary
    ensures o.Summarized? && o.summary == "" ==> t == UntitledTitle
    ensures o.SummaryFailed? ==> t == ErrorTitle
  {
    match o
    case Summarized(summary) => if summary != "" then summary else UntitledTitle
    case SummaryFailed => ErrorTitle
  }

  /** `sessions.filter((session) => session.id !== id)` */
  function WithoutSession(sessions: seq<Session>, id: int): (r: seq<Session>)
    ensures |r| <= |sessions|
    ensures forall s :: s in r <==> s in sessions && s.id != id
  {
    if sessions == [] then []
    else (if sessions[0].id == id then [] else [sessions[0]]) + WithoutSession(sessions[1..], id)
  }

  /** Filtering a concatenation filters each side and keeps them in order. */
  lemma {:induction false} WithoutSessionAppend(xs: seq<Session>, ys: seq<Session>, id: int)
    ensures WithoutSession(xs + ys, id) == WithoutSession(xs, id) + WithoutSession(ys, id)
    decreases |xs|
  {
    if xs == [] {
      assert xs + ys == ys;
    } else {
      assert (xs + ys)[1..] == xs[1..] + ys;
      WithoutSessionAppend(xs[1..], ys, id);
    }
  }

  /** Deleting an id no session has changes nothing. */
  lemma {:induction false} WithoutAbsentSession(sessions: seq<Session>, id: int)
    requires forall i :: 0 <= i < |sessions| ==> sessions[i].id != id
    ensures WithoutSession(sessions, id) == sessions
    decreases |sessions|
  {
    if sessions != [] {
      WithoutAbsentSession(sessions[1..], id);
      assert [sessions[0]] + sessions[1..] == sessions;
    }
  }

  /** Deleting twice is deleting once. */
  lemma WithoutSessionIdempotent(sessions: seq<Session>, id: int)
    ensures WithoutSession(WithoutSession(sessions, id), id) == WithoutSession(sessions, id)
  {
    var r := WithoutSession(sessions, id);
    forall i | 0 <= i < |r| ensures r[i].id != id {
      assert r[i] in r;
    }
    WithoutAbsentSession(r, id);
  }

  /** The component's state. `storedMessages` and `storedSessions` are the
      localStorage entries "chatMessages" and "pastChatSessions". */
  class Component {
    var messages: seq<Message>
    var currentConversation: seq<Message>
    var pastSessions: seq<Session>
    var activeTab: Tab
    var input: string
    var isTyping: bool
    var isSidebarOpen: bool
    var showPastSessions: bool
    var storedMessages: seq<Message>
    var storedSessions: seq<Session>

    /** What holds once every effect has run: storage mirrors the state, and
        while the current tab is shown the live conversation is what is
        displayed. */
    ghost predicate Valid()
      reads this
    {
      && storedMessages == messages
      && storedSessions == pastSessions
      && (activeTab == Current ==> currentConversation == messages)
    }

    /** Mounting, given what localStorage held under the two keys (`None`
        when a key is absent, or when rendering on the server). */
    constructor (savedMessages: Option<seq<Message>>, savedSessions: Option<seq<Session>>)
      ensures Valid()
      ensures messages == (if savedMessages.Some? then savedMessages.value else [Greeting])
      ensures pastSessions == (if savedSessions.Some? then savedSessions.value else [])
      ensures currentConversation == messages && activeTab == Current
      ensures input == "" && !isTyping && !isSidebarOpen && !showPastSessions
    {
      messages := if savedMessages.Some? then savedMessages.value else [Greeting];
      pastSessions := if savedSessions.Some? then savedSessions.value else [];
      input := "";
      isTyping := false;
      isSidebarOpen := false;
      showPastSessions := false;
      activeTab := Current;
      currentConversation := messages;
      storedMessages := messages;
      storedSessions := pastSessions;
    }

    /** The input field's `onChange`. */
    method SetInput(text: string)
      requires Valid()
      modifies this`input
      ensures Valid()
      ensures input == text
    {
      input := text;
    }

    /** `sendMessage`, with the chat endpoint given as `chat`, the map from
        the text sent to what the request gave. */
    method SendMessage(chat: string -> ChatOutcome)
      requires Valid()
      modifies this
      ensures Valid()
      // a blank input changes nothing
      ensures JsText.IsBlank(old(input)) ==>
        && messages == old(messages) && currentConversation == old(currentConversation)
        && input == old(input) && isTyping == old(isTyping)
      // otherwise exactly two messages are appended: the untrimmed input, then the bot's
      ensures !JsText.IsBlank(old(input)) ==>
        && messages == old(messages) + [Message(old(input), UserSender), BotMessage(chat(old(input)))]
        && input == "" && !isTyping
        && currentConversation == (if activeTab == Current then messages else old(currentConversation))
      // archived sessions, the tab and the panels are never touched
      ensures pastSessions == old(pastSessions) && activeTab == old(activeTab)
      ensures isSidebarOpen == old(isSidebarOpen) && showPastSessions == old(showPastSessions)
    {
      if JsText.IsBlank(input) {
        return;
      }
      var sent := input;
      messages := messages + [Message(sent, UserSender)];
      input := "";
      isTyping := true;
      var outcome := chat(sent);
      messages := messages + [BotMessage(outcome)];
      isTyping := false;
      if activeTab == Current {
        currentConversation := messages;
      }
      storedMessages := messages;
    }

    /** `newSession`, with the summarize endpoint given as `summarize` and the
        clock's reading (`Date.now()`, `toLocaleString()`) as `now` and
        `timestamp`. */
    method NewSession(summarize: seq<Message> -> SummaryOutcome, now: int, timestamp: string)
      requires Valid()
      modifies this
      ensures Valid()
      // only a conversation longer than the greeting is archived, and it is
      // the live conversation, not the displayed one
      ensures |old(currentConversation)| <= 1 ==> pastSessions == old(pastSessions)
      ensures |old(currentConversation)| > 1 ==>
        pastSessions == [Session(now, timestamp, Title(summarize(old(currentConversation))),
                                 old(currentConversation))] + old(pastSessions)
      // always back to a fresh greeting on the current tab
      ensures messages == [Greeting] && currentConversation == [Greeting] && activeTab == Current
      ensures input == old(input) && isTyping == old(isTyping)
      ensures isSidebarOpen == old(isSidebarOpen) && showPastSessions == old(showPastSessions)
    {
      var conversationToSave := currentConversation;
      if |conversationToSave| > 1 {
        var title := Title(summarize(conversationToSave));
        var session := Session(now, timestamp, title, conversationToSave);
        pastSessions := [session] + pastSessions;
      }
      messages := [Greeting];
      currentConversation := [Greeting];
      activeTab := Current;
      storedMessages := messages;
      storedSessions := pastSessions;
    }

    /** `loadSession`, defined in the component but reachable from no
        control. Its pin of the live conversation is redundant: the sync
        effect already keeps it equal to `messages` on the current tab. */
    method LoadSession(session: Session)
      requires Valid()
      modifies this
      ensures Valid()
      ensures messages == session.messages && activeTab == Archived(session.id) && !showPastSessions
      ensures currentConversation == old(currentConversation)
      ensures pastSessions == old(pastSessions) && input == old(input) && isTyping == old(isTyping)
      ensures isSidebarOpen == old(isSidebarOpen)
    {
      if activeTab == Current {
        currentConversation := messages;
      }
      messages := session.messages;
      activeTab := Archived(session.id);
      showPastSessions := false;
      storedMessages := messages;
    }

    /** `deleteSession`: the tab and the display are left as they are, even
        when the deleted session is the one shown. */
    method DeleteSession(sessionId: int)
      requires Valid()
      modifies this
      ensures Valid()
      ensures pastSessions == WithoutSession(old(pastSessions), sessionId)
      ensures messages == old(messages) && currentConversation == old(currentConversation)
      ensures activeTab == old(activeTab) && input == old(input) && isTyping == old(isTyping)
      ensures isSidebarOpen == old(isSidebarOpen) && showPastSessions == old(showPastSessions)
    {
      pastSessions := WithoutSession(pastSessions, sessionId);
      storedSessions := pastSessions;
    }

    /** The "Current Conversation" button: shows the live conversation. */
    method ShowCurrent()
      requires Valid()
      modifies this
      ensures Valid()
      ensures activeTab == Current && messages == old(currentConversation) && !isSidebarOpen
      ensures currentConversation == old(currentConversation)
      ensures pastSessions == old(pastSessions) && input == old(input) && isTyping == old(isTyping)
      ensures showPastSessions == old(showPastSessions)
    {
      activeTab := Current;
      messages := currentConversation;
      isSidebarOpen := false;
      storedMessages := messages;
    }

    /** The button of an archived session in the sidebar list: shows that
        session's messages. The live conversation stays pinned. */
    method ShowSession(session: Session)
      requires Valid()
      requires session in pastSessions
      modifies this
      ensures Valid()
      ensures activeTab == Archived(session.id) && messages == session.messages && !isSidebarOpen
      ensures currentConversation == old(currentConversation)
      ensures pastSessions == old(pastSessions) && input == old(input) && isTyping == old(isTyping)
      ensures showPastSessions == old(showPastSessions)
    {
      activeTab := Archived(session.id);
      messages := session.messages;
      isSidebarOpen := false;
      storedMessages := messages;
    }
  }

  /** Viewing an archived session and clicking "Current Conversation" shows
      the live conversation again, with nothing lost or repeated. */
  method ViewArchivedAndReturn(c: Component, session: Session)
    requires c.Valid() && c.activeTab == Current && session in c.pastSessions
    modifies c
    ensures c.Valid()
    ensures c.activeTab == Current && c.messages == old(c.messages)
    ensures c.currentConversation == old(c.currentConversation)
    ensures c.pastSessions == old(c.pastSessions)
  {
    c.ShowSession(session);
    c.ShowCurrent();
  }

  /** A message sent while an archived session is shown is appended to the
      display only: the archive is untouched, and returning to the current
      tab shows the live conversation as it was, without that exchange. */
  method SendWhileArchivedIsDropped(c: Component, session: Session, chat: string -> ChatOutcome)
    requires c.Valid() && c.activeTab == Current && session in c.pastSessions
    modifies c
    ensures c.Valid()
    ensures c.activeTab == Current && c.messages == old(c.messages)
    ensures c.pastSessions == old(c.pastSessions)
  {
    c.ShowSession(session);
    c.SendMessage(chat);
    c.ShowCurrent();
  }

  /** Reloading the page mounts a new component from what storage holds: it
      displays what was displayed and lists what was listed, on the current
      tab. While an archived session is on display, a reload makes that
      session's messages the live conversation, and the live conversation
      is lost. */
  method Reload(c: Component) returns (d: Component)
    requires c.Valid()
    ensures fresh(d) && d.Valid()
    ensures d.messages == c.messages && d.pastSessions == c.pastSessions
    ensures d.activeTab == Current && d.currentConversation == c.messages
  {
    d := new Component(Some(c.storedMessages), Some(c.storedSessions));
  }

  /** Reloading while an archived session is on display: the reloaded
      component's live conversation is that session's messages. */
  method ReloadWhileArchived(c: Component, session: Session) returns (d: Component)
    requires c.Valid() && session in c.pastSessions
    modifies c
    ensures fresh(d) && d.Valid() && d.activeTab == Current
    ensures d.currentConversation == session.messages && d.messages == session.messages
    ensures d.pastSessions == old(c.pastSessions)
  {
    c.ShowSession(session);
    d := Reload(c);
  }

  /** A send while an archived session is on display reaches storage, so a
      reload then makes the archived messages plus the exchange the live
      conversation. */
  method SendThenReloadWhileArchived(c: Component, session: Session, chat: string -> ChatOutcome)
    returns (d: Component)
    requires c.Valid() && session in c.pastSessions && !JsText.IsBlank(c.input)
    modifies c
    ensures fresh(d) && d.Valid() && d.activeTab == Current
    ensures d.currentConversation == d.messages
    ensures d.messages
      == session.messages + [Message(old(c.input), UserSender), BotMessage(chat(old(c.input)))]
    ensures d.pastSessions == old(c.pastSessions)
  {
    c.ShowSession(session);
    c.SendMessage(chat);
    d := Reload(c);
  }

  /** Viewing an archived session and going back before a reload keeps the
      live conversation across the reload. */
  method ReloadAfterReturn(c: Component, session: Session) returns (d: Component)
    requires c.Valid() && c.activeTab == Current && session in c.pastSessions
    modifies c
    ensures fresh(d) && d.Valid() && d.activeTab == Current
    ensures d.currentConversation == old(c.currentConversation) && d.messages == old(c.messages)
    ensures d.pastSessions == old(c.pastSessions)
  {
    c.ShowSession(session);
    c.ShowCurrent();
    d := Reload(c);
  }

  /** A component that was never stored opens on the greeting alone, with no
      archived sessions; starting a new session there archives nothing. */
  method FirstVisit(summarize: seq<Message> -> SummaryOutcome, now: int, timestamp: string)
    returns (c: Component)
    ensures fresh(c) && c.Valid()
    ensures c.messages == [Greeting] && c.pastSessions == [] && c.activeTab == Current
  {
    c := new Component(None, None);
    c.NewSession(summarize, now, timestamp);
  }
}
