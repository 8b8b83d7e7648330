# AI sales assistant: relay server and browser state

This project models the core of a real-time sales coaching assistant.

- The **relay server** (`server/index.js`) keeps a table of browser WebSocket connections, named `conn_<n>` from a counter.
- For each connection it drives a live speech transcriber and keeps the last 20 utterances.
- After each final utterance it asks an advisor (a chat-completion model) two questions:
  - stage 1, "should a tip be given now?" (answered "Sim" or "Não");
  - stage 2, only on "Sim": "what tip?", whose reply is parsed into a tip with a text and a severity.
- The **browser** (`src/App.jsx`) appends transcripts to its conversation. It shows the latest tip and guesses the sales step (1–7) from keywords in the tip. `resetConversation` clears its state on both sides.
- The **tip panel** (`src/components/TipPanel.jsx`) shows the tip and keeps the five most recent tips, newest first. It classifies each tip's severity into a card class and an icon.

Modules, following the program's structure:

- `Text`: the JavaScript string operations the core relies on:
  - `trim` with the full JavaScript white-space set;
  - `toUpperCase` and `toLowerCase`;
  - `includes`;
  - decimal rendering of a counter;
  - `join` (and `split`, which only serves to read a transcript back line by line).
- `Conversation`: how a speaker tag becomes a role, and the 20-entry sliding window.
- `Prompt`: the numbered transcript and the two advisor requests.
- `TipDecision`: `identifyTipOpportunity`, `generateTip` with its reply parsing, and the two-stage decision.
- `Protocol`: the JSON messages on the browser socket.
- `Relay`: `class RelayServer` holds the `connections` table, the `connectionConversations` map and the counter. Its handlers live there too: connection, message, close and `transcriptReceived`. Each handler is one atomic step. It returns, in order, the effects it has outside its tables, logging aside:
  - messages sent;
  - transcriber calls;
  - advisor calls.
- `ClientApp`: `class ClientState`, the App component's state, with its `onmessage` handler and `resetConversation`.
- `TipPanel`: `class TipPanelState`, with the history and the severity classifications.

Outside inputs become parameters:

- The advisor is a function `advisor: Request -> Reply`. `Reply` is `Ok(content)` or a failed call, `Fail`.
- `JSON.parse` of the reply's object span is a partial function `decode: string -> Option<Tip>`.
- The transcriber's `getReadyState()` is an integer compared to 1.
- `Date.now()` is a parameter `now`.

Where the source's behaviour is surprising, the model follows the code:

- **The reply's object span is greedy.** `content.match(/\{[\s\S]*\}/)` runs from the first `{` to the last `}` after it. It is not a balanced-brace match. `MatchBounds` states this: the match contains every brace span. `BraceSpanIsGreedy` shows `{a} {b}` matched whole.
- **Only the string "0" is the salesperson.** A numeric speaker tag `0` is falsy, so it is replaced by `"unknown"`. The strict `=== "0"` then gives `cliente`. See `SpeakerRole`.
- **A final transcript recreates a conversation.** A final transcript for a connection whose conversation does not exist creates one, even if the transcript is blank and even after the socket closed.
- **A missing connection makes most messages no-ops.** On a connection id that is no longer in `connections`, `start_transcription`, `stop_transcription` and `audio_data` hit a `TypeError`. The handler catches it, so they do nothing. `reset_conversation` still resets.
- **The transcriber's `close` event keeps the handle.** It clears only the keep-alive timer and does not null `deepgramConnection`.

## Model

| member | source | states |
|---|---|---|
| Text.TrimSpec | server/index.js:82 | what `trim` removes is JavaScript white space at both ends, what it keeps neither starts nor ends with white space, and it keeps nothing exactly when the input is all white space |
| Text.TrimIdempotent | server/index.js:175 | a property of the modelled `trim`: trimming its result again changes nothing (the source trims each reply only once) |
| Text.ToLower | src/App.jsx:86-100 | the length is kept, other characters are kept, and each ASCII/Latin-1 upper-case letter becomes its lower-case partner 32 code points on, so no upper-case letter is left |
| Text.IncludesIff | src/App.jsx:86-101 | `includes` holds exactly when the keyword occurs at some position |
| Text.SplitJoin | server/index.js:167 | splitting the `\n`-joined lines of a transcript at `\n` gives the lines back, when no line contains `\n` |
| Text.DecimalInjective | server/index.js:260 | distinct counter values render as distinct decimal strings |
| Conversation.SpeakerRole | server/index.js:85-91 | the role is `vendedor` exactly when the first word's speaker is the string "0"; a numeric 0 gives `cliente` |
| Conversation.Append | server/index.js:94-100 | push, then one shift above 20: the length grows by one up to 20, the new entry is last, and the rest is the old buffer minus at most its oldest entry |
| Conversation.AppendKeepsWindow | server/index.js:94-100 | appending to the last 20 of a history gives the last 20 of the extended history |
| Conversation.AppendAllKeepsWindow | server/index.js:94-100 | after any run of appends the buffer holds the last 20 utterances, in arrival order |
| Conversation.TwentyFiveAppends | server/index.js:97-100 | 25 appends to an empty buffer keep utterances 6 to 25 |
| Prompt.UpperLabels | server/index.js:167 | the roles appear as `VENDEDOR` and `CLIENTE` in the transcript |
| Prompt.Request.UserMessage | server/index.js:165-170 | the user message is the request's fixed opening, the transcript and its fixed question (also lines 216-220 for the tip request); the transcript is read back from between them |
| Prompt.TranscriptLines | server/index.js:167 | when no utterance contains a line break, line k of the transcript is `${k+1}. ROLE: text` of entry k, one line per entry |
| TipDecision.IdentifyTipOpportunity | server/index.js:144-180 | fewer than two entries give "Não" without a call; a failed call gives "Não"; otherwise the answer is the trimmed reply |
| TipDecision.MatchBounds | server/index.js:229 | a match is a `{`…`}` span containing every other such span (greedy); no match exactly when no `}` follows a `{` |
| TipDecision.BraceSpan | server/index.js:229-231 | the matched text is the substring from the first `{` to the last `}`, so it opens with `{` and closes with `}`; it is absent exactly when there is no match |
| TipDecision.BraceSpanWhole | server/index.js:229 | a reply that is one object from end to end is matched whole |
| TipDecision.ParseTip | server/index.js:226-245 | the decoded object when the span exists and decodes; otherwise the trimmed reply with severity "normal" |
| TipDecision.GenerateTip | server/index.js:183-253 | a failed call gives "Não foi possível gerar uma dica neste momento." at "normal"; a reply is trimmed and parsed |
| TipDecision.GenerateTipOutcomes | server/index.js:226-252 | every stage-2 tip is the fixed fallback, the trimmed reply at "normal", or the decoded span |
| TipDecision.WellFormedReplyDecoded | server/index.js:229-231 | a reply that is one decodable object is delivered as decoded, severity included |
| TipDecision.Decide | server/index.js:112-124 | stage 1 is consulted only with at least two entries; stage 2 is consulted, and a tip produced, exactly when the trimmed stage-1 answer is "Sim"; the tip is stage 2's result |
| TipDecision.YesThenObjectGivesTip | server/index.js:112-124 | two entries, "Sim" and a decodable object reply make both calls and deliver the decoded tip |
| Relay.ConnectionNameInjective | server/index.js:260 | `conn_${n}` names distinct counters distinctly |
| Relay.IssueNext | server/index.js:256-260 | the id drawn from the counter was never issued before, and drawing it adds exactly it |
| Relay.Start | server/index.js:282-289 | a handle is created, with one transcriber opened, only for a known connection without one; everything else is unchanged |
| Relay.Stop | server/index.js:291-300 | an existing handle is finished, its keep-alive cleared and set to null; otherwise nothing |
| Relay.StartIdempotent | server/index.js:284 | a second start changes nothing and opens nothing |
| Relay.StartThenStop | server/index.js:282-300 | start then stop restores the table after opening, finishing and cleaning one handle |
| Relay.AudioEffects | server/index.js:302-311 | audio is forwarded exactly when the connection has a handle whose ready state is 1 |
| Relay.CloseEffects | server/index.js:335-339 | the handle is finished and cleaned up exactly when one exists |
| Relay.TranscriptEffects | server/index.js:103-124 | the transcript message is sent first, then the advisor calls, then at most one tip, last |
| Relay.RelayServer.ConversationsBounded | server/index.js:97-100 | every stored conversation holds at most 20 entries |
| Relay.RelayServer.constructor | server/index.js:256-257 | the server starts with no connections, counter 0 and no conversations (the empty `connectionConversations` map of line 41), satisfying the invariant |
| Relay.RelayServer.OnConnection | server/index.js:259-274 | a fresh id, the counter incremented, the connection registered active without a handle, the id sent |
| Relay.RelayServer.OnMessage | server/index.js:276-329 | each message kind acts as Start, Stop or AudioEffects; reset empties the conversation and sends the notice; unknown and malformed messages do nothing |
| Relay.RelayServer.OnClose | server/index.js:331-349 | the handle is released if present; the conversation and the connection are removed |
| Relay.RelayServer.OnTranscriptReceived | server/index.js:71-129 | interim events do nothing; a blank final one only ensures the conversation exists; otherwise the utterance enters the window of all utterances heard and the effects are the transcript, the decision's calls and its tip |
| ClientApp.InferStep | src/App.jsx:86-102 | from a valid step the result is a valid step; "abordagem" or "contato inicial" always selects step 1 |
| ClientApp.FirstMatch | src/App.jsx:86-102 | no step is selected exactly when no keyword of any row occurs |
| ClientApp.InferStepIsFirstMatch | src/App.jsx:86-102 | the if-chain computes the first matching row of the keyword table, or keeps the step |
| ClientApp.FirstHitWins | src/App.jsx:86-102 | a row with a keyword hit and no earlier hit decides the step, whatever later rows match |
| ClientApp.NoKeywordKeepsStep | src/App.jsx:86-102 | with no keyword the step is unchanged |
| ClientApp.ClientState.constructor | src/App.jsx:14-23 | the app starts with no connection id, an empty conversation, no tip and step 1, so the step starts in 1..7 |
| ClientApp.ClientState.OnMessage | src/App.jsx:59-115 | `connection` records the id, `transcript` appends an item, `tip` sets the tip and infers the step, `notification` changes nothing |
| ClientApp.ClientState.ResetConversation | src/App.jsx:220-231 | the conversation, tip and step are cleared to [], none and 1; a reset request is sent only on an open socket |
| TipPanel.PushHistory | src/components/TipPanel.jsx:15-18 | the new tip is first, followed by the previous history, cut to five |
| TipPanel.PushAllIsRecent | src/components/TipPanel.jsx:15-18 | after any run of tips the history is the five most recent, newest first |
| TipPanel.TipPanelState.constructor | src/components/TipPanel.jsx:6-7 | the panel starts hidden with an empty history |
| TipPanel.SeverityClass | src/components/TipPanel.jsx:42-51 | `tip-warning` exactly for "warning", `tip-alert` exactly for "alert", `tip-normal` for everything else |
| TipPanel.IconFor | src/components/TipPanel.jsx:30-39 | triangle exactly for "warning", circle exactly for "alert", light bulb for everything else |
| TipPanel.Icon.ColourClass | src/components/TipPanel.jsx:33-37 | yellow exactly for the triangle, red exactly for the circle, blue exactly for the light bulb |
| TipPanel.IconAgreesWithClass | src/components/TipPanel.jsx:30-51 | the icon and the card class split the severities the same way |
| TipPanel.TipPanelState.OnTipChanged | src/components/TipPanel.jsx:10-27 | a tip makes the panel visible and enters the history; no tip changes nothing |
| TipPanel.TipPanelState.OnHideTimer | src/components/TipPanel.jsx:21-23 | the fired timer hides the card and keeps the history |

## Left out

- Timers: the transcriber's keep-alive interval, the client's 2-second reconnect and the panel's 10-second hide delay have no clock. Clearing the interval is the `ClearKeepAlive` effect, and the hide is the `OnHideTimer` step. Which timer fires first is not modelled.
- Relay.RelayServer.OnConnection: `connectionCounter` is a JavaScript number, and the model's counter is an unbounded `nat`. Past 2^53, `connectionCounter++` no longer increases it, so `conn_N` ids would repeat. From 10^21 on, `${n}` renders in exponent notation, which `Text.Decimal` does not model. Id uniqueness (`IssueNext`, `ConnectionNameInjective`) holds only below those counts.
- Logging is not modelled. The `console.log` and `console.error` calls of the handlers, such as server/index.js:261, 287, 298, 316, 324 and 327 and src/App.jsx:106 and 110, are not returned as effects.
- Concurrency: the advisor calls are awaited inside the transcript handler. Other handlers can run between those awaits, and the model runs each handler as one atomic step.
- `JSON.stringify` and `JSON.parse` are not modelled. Messages are datatypes, and decoding the advisor's reply is the `decode` parameter. A decoded object with missing or non-string fields is not modelled.
- Base64 decoding of audio and the audio capture in `src/utils/audioUtils.js` and `startRecording` are not modelled. Audio is an opaque payload.
- The transcriber and advisor SDKs are the `advisor` parameter and the transcriber effects. This covers the model names, language options and the text of both system prompts. A request carries the rendered transcript, and `Request.UserMessage` gives its user message word for word.
- Startup is not modelled: environment-key checks, Express, CORS, the status route and `listen`.
- UI rendering is not modelled: JSX layout, animation classes, the info modal, the step indicator and the transcription panel.
- `IsUpperLetter`/`ToLower` cover ASCII and Latin-1 (`toLowerCase` in full Unicode is not modelled); `ToUpper` covers ASCII only, which is all the role labels need.
- Conversation.JsValue: a numeric speaker tag is an integer; fractional numbers and NaN are not modelled.
- ClientApp.ClientState.OnMessage: a message of unknown kind, or a frame `JSON.parse` rejects, is only logged. It is not a constructor of `ServerMessage`.
- TipPanel.TipPanelState.OnTipChanged: React runs the effect when the `tip` prop changes identity. The model calls it once per new prop value.
- The client's `onopen`, `onclose` and `onerror` handlers only set `isConnected`/`isRecording`. Those flags are not part of `ClientState`; the socket's openness is the `socketOpen` parameter.
