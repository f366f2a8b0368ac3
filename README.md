# Chat interface: session state and API proxies

A Dafny model of a browser chat client. The client keeps its
conversation and a list of archived sessions in local storage. Two
server endpoints relay its requests to a generative-language API.

- `chat_ui.dfy` (module `ChatUI`) models the chat component. It is a
  class `Component` with the component's state fields:
  - `messages`, the conversation on display;
  - `currentConversation`, the live conversation, kept while an
    archived session is on display;
  - `pastSessions`, the archived sessions, newest first;
  - `activeTab`, `input`, `isTyping` and the two panel flags;
  - `storedMessages` and `storedSessions`, the two localStorage entries
    `chatMessages` and `pastChatSessions`.

  Each handler is one method: sending a message, starting a new
  session, loading a session, deleting a session, and the two tab
  buttons. A method also runs the effects its changes trigger: the two
  storage writes, and the copy of `messages` into `currentConversation`
  while the current tab is on display. `Valid()` is what holds once
  those effects have run. It says that storage mirrors the state, and
  that on the current tab the live conversation is the one on display.
  Every method keeps `Valid()`.
- `chat_api.dfy` (`ChatApi`) models the chat endpoint as one pure
  function, `Handle`. It covers the method check, the prompt, the
  pass-through of an upstream error status, and the reply extraction
  with its fallback.
- `summarize_api.dfy` (`SummarizeApi`) models the summarize endpoint.
  It covers the flattening of the conversation into
  `User: `/`Bot: ` lines, the cut to 1000 characters, the prompt, and
  the extraction of the trimmed title.
- `gemini.dfy` (`Gemini`) holds what the two endpoints share:
  - the upstream payload shape and the guard on it;
  - JavaScript truthiness for `data.error`;
  - the HTTP responses.
- `js_text.dfy` (`JsText`) models JavaScript's `String.prototype.trim`.
  It uses the exact whitespace and line-terminator set of ECMA-262.
- `wiring.dfy` (`Wiring`) connects the component's two requests to the
  two endpoints. `axios` rejects every non-2xx response. So every error
  response reaches the component as a failed request: the bot message
  becomes the error placeholder, or the session title becomes
  "Error Summarizing".
- `messages.dfy` holds the message record and the greeting.
  `optional.dfy` holds `Option`.

Each network call is a parameter:
- the upstream API is a function `fetch` from the prompt sent to what
  came back;
- the component's calls to the two endpoints are the functions `chat`
  and `summarize`.

So the model also states what is sent: the untrimmed input, the live
conversation, and the exact prompt.

## Behaviour worth knowing

The model states each of these behaviours of the code.

- The code persists `messages`, the conversation on display. It does not
  persist the live conversation. While an archived session is on
  display, a reload makes that session's messages the live conversation,
  and the live conversation is lost (`ChatUI.ReloadWhileArchived`).
  Going back to the current tab first restores `messages`, so a reload
  after that keeps the live conversation (`ChatUI.ReloadAfterReturn`).
- Nothing stops a send while an archived session is on display. The
  exchange is appended to the display, and so also written to
  `chatMessages`, but not to the live conversation. The archived session
  is not changed, and returning to the current tab drops the exchange
  (`ChatUI.SendWhileArchivedIsDropped`). A reload while still on that tab
  makes the archived messages plus the exchange the live conversation
  (`ChatUI.SendThenReloadWhileArchived`).
- Session ids come from `Date.now()`, and nothing checks that they are
  unique.
- The summarize endpoint answers 500 when the upstream first part
  exists but has no `text`: `.trim()` throws inside the `try` block.
  The client then archives the session as "Error Summarizing"
  (`Wiring.ArchiveTitle`).
- A 2xx summarize response without a `summary` gives the title
  "Untitled Conversation", because `undefined || "Untitled Conversation"`
  is the fallback (`Wiring.SummaryOutcomeOf`).
- Deleting the session on display leaves `activeTab` naming a session
  that no longer exists.
- `loadSession` is never called by the component. Its copy of
  `messages` into `currentConversation` is redundant, because the sync
  effect already keeps the two equal on the current tab
  (`ChatUI.Component.LoadSession`).

## Model

| member | source | states |
|---|---|---|
| `JsText.IsTrimmable` | pages/api/summarize.js:53 | the characters `trim` removes: the ECMA-262 white space (tab, vertical tab, form feed, space, no-break space, byte order mark and the Unicode space separators) and the line terminators (line feed, carriage return, line and paragraph separators) |
| `JsText.Trim` | pages/api/summarize.js:53 | the trimmed string is the window of the input that starts at the first non-trimmable character; everything outside it is trimmable; a non-empty result starts and ends with a non-trimmable character |
| `JsText.TrimUnique` | pages/api/summarize.js:53 | any window that meets the trimming conditions is exactly `Trim`'s result, so trimming has one meaning |
| `JsText.TrimIdempotent` | pages/api/summarize.js:53 | trimming a trimmed string changes nothing |
| `JsText.BlankIffAllTrimmable` | components/ChatUI.js:87 | an input is blank exactly when every character of it is white space or a line terminator |
| `JsText.BlankIffTrimEmpty` | components/ChatUI.js:87 | the guard `!input.trim()` holds exactly for the blank inputs |
| `Gemini.Truthy` | pages/api/chat.js:34 | JavaScript truthiness: an absent property and `null` are falsy, so are `""`, `false` and `0`; arrays and objects are truthy |
| `Gemini.IsOk` | pages/api/chat.js:31 | `response.ok`: the status is in 200..299; the same range is what `axios` resolves for, at components/ChatUI.js:94 |
| `Gemini.HasFirstPart` | pages/api/chat.js:38-44 | the guard both endpoints use (also pages/api/summarize.js:46-52): candidates present and non-empty, the first candidate's content present, its parts present and non-empty |
| `Gemini.FirstPart` | pages/api/chat.js:45 | under that guard, the part read is a part of the first candidate's content (`candidates[0].content.parts[0]`) |
| `Gemini.UpstreamErrorOf` | pages/api/chat.js:34 | the error passed through is `data.error` when truthy, else "Gemini API error" |
| `Gemini.WithInstruction` | pages/api/chat.js:21 | the prompt is a fixed instruction, a blank line, then the text unaltered, so its length is their sum |
| `Gemini.WithInstructionInjective` | pages/api/chat.js:21 | under one instruction, different texts produce different prompts |
| `ChatApi.Prompt` | pages/api/chat.js:21 | the sent prompt is the 150-word instruction, a blank line, then the message unaltered and untrimmed |
| `ChatApi.HasReplyText` | pages/api/chat.js:38-45 | the guard holds and the first part's text is present and non-empty, which is when `text || reply` picks the text |
| `ChatApi.ReplyOf` | pages/api/chat.js:37-46 | the reply is the first part's text, untrimmed, when candidates, content and parts are present and non-empty and that text is non-empty; otherwise "No reply from Gemini API"; never empty |
| `ChatApi.Handle` | pages/api/chat.js:1-53 | non-POST gives 405 "Method Not Allowed" whatever the upstream does; a thrown fetch gives 500 "Internal server error"; a non-ok status is passed through with the upstream error; an ok answer gives 200 with `ReplyOf`; a 2xx status occurs exactly with a reply body, and that reply is non-empty |
| `ChatApi.HandleSeesOnlyPrompt` | pages/api/chat.js:11-26 | the response depends on the upstream only through its answer to the prompt of the request's message |
| `SummarizeApi.Line` | pages/api/summarize.js:10 | a message's line is the tag "User: " for sender "user" or "Bot: " for any other sender, followed by the text unaltered |
| `SummarizeApi.Join` | pages/api/summarize.js:11 | `join("\n")`: no lines join to the empty string, and the first line starts the joined text |
| `SummarizeApi.ConversationText` | pages/api/summarize.js:9-11 | an empty conversation gives the empty text; otherwise the text starts with the first message's line |
| `SummarizeApi.Prompt` | pages/api/summarize.js:13-29 | the sent prompt is the title instruction, a blank line, then the first 1000 characters of the conversation text; so it is never longer than the instruction plus 1002 characters |
| `SummarizeApi.Lines` | pages/api/summarize.js:9-10 | one line per message, in order; "User: " plus the text for sender "user", "Bot: " plus the text for any other sender |
| `SummarizeApi.Limit` | pages/api/summarize.js:13 | the sent text has at most 1000 characters, is a prefix of the conversation text, and is all of it when that fits |
| `SummarizeApi.SummaryOf` | pages/api/summarize.js:45-54 | "Untitled Conversation" unless the first part exists; the first part's text trimmed (possibly empty) when it has text; a thrown TypeError when it has none |
| `SummarizeApi.Handle` | pages/api/summarize.js:1-61 | non-POST gives 405 whatever the upstream does; a thrown fetch, or a first part without text, gives 500 "Internal server error"; a non-ok status is passed through with the upstream error; otherwise 200 with `SummaryOf`; a 2xx status occurs exactly with a summary body |
| `SummarizeApi.HandleSeesOnlyPrompt` | pages/api/summarize.js:18-34 | the response depends on the upstream only through its answer to the prompt built from the request's messages |
| `SummarizeApi.SummaryIsTrimmed` | pages/api/summarize.js:53-56 | a returned summary that is not empty starts and ends with a non-whitespace character |
| `SummarizeApi.JoinAppend` | pages/api/summarize.js:11 | joining a concatenation of lines gives the two joins with one newline between them |
| `SummarizeApi.LinesAppend` | pages/api/summarize.js:10 | mapping a concatenation of messages gives the concatenation of their lines |
| `SummarizeApi.ConversationTextAppend` | pages/api/summarize.js:9-11 | the text of two conversations in a row is their texts with one newline between them; message order is kept |
| `SummarizeApi.LaterMessagesAreCutOff` | pages/api/summarize.js:9-13 | once the text of a conversation reaches 1000 characters, later messages do not change what is sent upstream |
| `SummarizeApi.SplitJoin` | pages/api/summarize.js:11 | splitting the join at newlines gives the lines back when none contains a newline |
| `SummarizeApi.ConversationTextLines` | pages/api/summarize.js:9-11 | when no message text contains a newline, the conversation text splits back into exactly the messages' lines, in order |
| `ChatUI.BotMessage` | components/ChatUI.js:95-99 | the appended bot message carries the reply on success and "Error getting response." on failure |
| `ChatUI.Title` | components/ChatUI.js:145-164 | the session title is the summary when non-empty, "Untitled Conversation" when it is empty, "Error Summarizing" on failure; never empty |
| `ChatUI.WithoutSession` | components/ChatUI.js:189 | a session is kept exactly when it was listed and its id differs from the deleted id |
| `ChatUI.WithoutSessionAppend` | components/ChatUI.js:189 | deletion acts on each part of a list separately, so the kept sessions stay in their relative order |
| `ChatUI.WithoutAbsentSession` | components/ChatUI.js:189 | deleting an id that no session has leaves the list as it was |
| `ChatUI.WithoutSessionIdempotent` | components/ChatUI.js:188-192 | deleting the same id twice is deleting it once |
| `JsText.IsBlank` | components/ChatUI.js:87 | the blank inputs, those that `!input.trim()` rejects; its meaning is stated by `JsText.BlankIffAllTrimmable` and `JsText.BlankIffTrimEmpty` |
| `ChatUI.Component.Valid` | components/ChatUI.js:63-76 | the stored messages equal `messages`, the stored sessions equal `pastSessions`, and on the current tab the live conversation equals the displayed one |
| `ChatUI.Component.constructor` | components/ChatUI.js:12-32 | each of the two stored values is used when present; otherwise the greeting alone or no sessions; on the current tab with empty input; storage mirrors the state |
| `ChatUI.Component.SetInput` | components/ChatUI.js:319 | the input field's text becomes the input |
| `ChatUI.Component.SendMessage` | components/ChatUI.js:86-103 | a blank input changes nothing; otherwise exactly the untrimmed user message and then the bot message are appended, the input is cleared and typing ends; the live conversation follows only on the current tab; the archived sessions and the tab are never changed; storage is kept in step |
| `ChatUI.Component.NewSession` | components/ChatUI.js:136-175 | a live conversation of at most one message archives nothing; a longer one is prepended as exactly one session, with the live conversation (not the one on display) and the summary title, and the old list is its tail; always ends with the greeting alone, displayed and live, on the current tab |
| `ChatUI.Component.LoadSession` | components/ChatUI.js:178-185 | the session's messages are displayed under its tab and the panel closes; the live conversation stays as it was |
| `ChatUI.Component.DeleteSession` | components/ChatUI.js:188-192 | the list becomes `WithoutSession` of the old list, storage follows, and the display and the tab are untouched |
| `ChatUI.Component.ShowCurrent` | components/ChatUI.js:220-224 | the current tab shows the live conversation and the sidebar closes |
| `ChatUI.Component.ShowSession` | components/ChatUI.js:234-238 | the chosen archived session's messages are displayed under its tab and the sidebar closes; the live conversation stays as it was |
| `ChatUI.ViewArchivedAndReturn` | components/ChatUI.js:220-238 | starting from the current tab, viewing an archived session and going back shows exactly the conversation that was displayed before, with the live conversation and the sessions unchanged |
| `ChatUI.SendWhileArchivedIsDropped` | components/ChatUI.js:72-76 | a send while an archived session is displayed leaves the archive untouched, and going back shows the live conversation without that exchange |
| `ChatUI.Reload` | components/ChatUI.js:63-70 | a component mounted from storage displays what was displayed and lists what was listed, on the current tab |
| `ChatUI.ReloadWhileArchived` | components/ChatUI.js:63-70 | a reload while an archived session is displayed makes that session's messages both displayed and live, on the current tab; the sessions are kept |
| `ChatUI.ReloadAfterReturn` | components/ChatUI.js:63-70 | viewing an archived session, going back to the current tab and then reloading keeps the displayed and live conversation and the sessions |
| `ChatUI.SendThenReloadWhileArchived` | components/ChatUI.js:63-103 | a non-blank send while an archived session is displayed, then a reload, makes the archived messages followed by the user message and the bot message the live and displayed conversation |
| `ChatUI.FirstVisit` | components/ChatUI.js:141 | with nothing stored, the component opens on the greeting alone, and a new session archives nothing |
| `Wiring.ChatOutcomeOf` | components/ChatUI.js:94-99 | a non-2xx response is a failed request, since `axios` rejects it; a 2xx reply response gives its reply |
| `Wiring.SummaryOutcomeOf` | components/ChatUI.js:144-145 | a non-2xx response is a failed request; a 2xx summary response gives its summary; a 2xx response without a summary gives the title "Untitled Conversation" |
| `Wiring.ChatService` | components/ChatUI.js:94 | the chat request through the real endpoint fails whenever the upstream call throws |
| `Wiring.SummaryService` | components/ChatUI.js:144 | the summarize request through the real endpoint fails whenever the upstream call throws |
| `Wiring.BotReply` | components/ChatUI.js:94-99 | through the real endpoint, the bot message is never empty; it is the error placeholder when the upstream call throws or fails, and the endpoint's reply when it succeeds |
| `Wiring.ServiceReply` | components/ChatUI.js:94-95 | the bot message a send through the chat endpoint appends is `BotReply` |
| `Wiring.MissingReplyShowsFallback` | pages/api/chat.js:37-48 | an ok upstream answer without candidates, content or parts shows "No reply from Gemini API" as the bot message |
| `Wiring.ArchiveTitle` | components/ChatUI.js:144-164 | the title of a conversation archived through `SummaryService(fetch)` is never empty. It is "Error Summarizing" when the upstream call throws or fails, or when the first part has no text. It is "Untitled Conversation" without a first part, or when the trimmed text is empty. Otherwise it is the trimmed text |

## Left out

- Rendering is left out because it is presentation only. This covers the JSX markup, styling, auto-scroll, input focus, the `hasMounted` guard and the typing indicator (components/ChatUI.js:39-60, 194-342).
- Markdown rendering is left out because it is a foreign library.
- Speech synthesis and voice recognition, including the transcript written into the input, are left out because they are browser APIs (components/ChatUI.js:79-84, 105-133).
- The sidebar toggle button (components/ChatUI.js:268) is left out because it is presentation only. The model keeps the two panel flags only so that the handlers can be seen closing them.
- The network is left out. `fetch`, `axios`, the API key and the upstream URL are replaced by outcome parameters.
- Async interleaving is left out. Each handler is one atomic step, so neither a new session started while a reply is pending, nor the `isTyping` state during the await, is represented.
- The clock and locale are parameters: `Date.now()` and `toLocaleString()`.
- JSON serialisation, `JSON.parse` failure and storage write failure are left out. Storage holds the values themselves.
- Server-side rendering (`typeof window === "undefined"`) is the case with no stored value.
- A request body without `message` or `messages`, or a `messages` that is not an array, is left out. The summarize endpoint would then throw outside its `try` block.
- A `null` upstream body is left out. The upstream body is always an object.
- A `null` candidate or part, which makes both endpoints answer 500, is left out. A candidate, content or part is either present as an object or absent (pages/api/chat.js:41, 45; pages/api/summarize.js:53).
- A first-part `text` that is not a string is left out. It is either a string or absent.
- `console.log` and `console.error` are left out.
- `Wiring.ChatOutcomeOf`: a 2xx response without a reply field would give the bot message the text `undefined` in the source; the model counts it as a failure. `ChatApi.Handle` proves that the endpoint never sends such a response.
- `SummarizeApi.Limit`: counts Unicode scalar values where JavaScript's `slice` counts UTF-16 code units. The two differ only for characters outside the Basic Multilingual Plane.
- `Gemini.Truthy`: JSON numbers are integers here, so a non-integral number or NaN in `data.error` is not represented.
