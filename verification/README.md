# Streaming session controller of the chat client, in Dafny

This project models the browser client `src/frontend/app.js` of a multi-thread
chat UI. The client streams an assistant's reply over a server-push
`EventSource`. The model covers its streaming session controller:

- **Transport lifecycle.** The module-global `source` holds at most one open
  `EventSource`. `openStream` closes the previous one before opening a new one
  bound to a thread, and disables Send. `closeStream` releases the stream and
  enables Send.
- **Event classification.** Events arrive on four channels: the default
  `message` channel, `chunk`, `system` and `tool_call`. Each event becomes
  exactly one action: append a chunk, end the turn, show a tool call, or ignore.
- **Per-turn response accumulator.** These are the three callbacks that
  `selectThread` and the composer's submit handler pass to `openStream`. They
  create the AI bubble lazily, append chunk text to it, and keep a single
  tool-call indicator whose text is last-write-wins. They reset on end of turn.
- **Thread selection, draft and send flows.** `selectThread`, the submit handler
  and the new-chat handler.

The client is one immutable record (`Session.Client`). Every callback and
handler is a pure function from a client to a client. Network answers are
parameters: the loaded history, whether the post succeeded, and a freshly
minted thread id. The requests the client issues are recorded in a request log.

The callbacks require the representation invariant `Session.Valid`. It says
three things: the open stream is the newest one; an attached bubble is a
displayed AI entry; and an indicator only exists next to a bubble.
`Session.Initial` satisfies it, and `Flows.Step` preserves it. So it is a
property of every reachable client, not an extra demand on callers.

Each opened stream gets a serial number, and events carry the serial of the
stream they arrive on. Only the open stream's events are dispatched. This models
`EventSource.close()` detaching the old listeners, so a superseded stream's
events cannot reach the new stream's callbacks.

Module layout:

| file | module | contents |
|---|---|---|
| `wrappers.dfy` | `Wrappers` | `Option` |
| `text.dfy` | `Text` | JavaScript's `String.prototype.trim` |
| `messages.dfy` | `Messages` | displayed messages, `appendMessage`'s classification, the title fallback |
| `events.dfy` | `Events` | channels, events, `Classify` |
| `session.dfy` | `Session` | the client record, `openStream`/`closeStream`/`setSendDisabled`, the callbacks, `Deliver` |
| `flows.dfy` | `Flows` | `selectThread`, submit, new chat, `Step`/`Run` over user inputs and events |
| `properties.dfy` | `Properties` | lemmas over event sequences and the flows |

Where the code differs from what one might expect of such a client, the model
follows the code:

- The new-chat handler does not close an open stream. The stream keeps
  delivering into the draft, and Send stays disabled until that stream ends.
  `Properties.NewChatKeepsStreamOpen` shows this.
- There is no transport-error path. The `onerror` handler is commented out, so
  no event releases the lock except an `end` signal or a new `openStream`.
- The submit handler does not check the lock itself. While Send is disabled the
  browser does not fire the submit event; `Flows.Submit` models the handler as
  written.
- `selectThread` opens no stream when the history request fails. An earlier
  stream then stays open, with the same serial, thread and indicator. If its turn
  already had a bubble, `clearMessages` detaches it and later chunks go to that
  off-screen node (see the detached-bubble line under "## Left out"). If not,
  the next chunk or tool call starts a bubble in the cleared list.

## Model

| member | source | states |
|---|---|---|
| `Text.Trim` | src/frontend/app.js:277 | the result contains no leading or trailing JavaScript white space, and it is a slice of the input with only white space cut from either end |
| `Text.TrimUnique` | src/frontend/app.js:169 | trimming is the unique split of a string into an all-space prefix, a core that neither starts nor ends with a space, and an all-space suffix |
| `Text.TrimIdempotent` | src/frontend/app.js:277 | a general fact about `trim` as the client applies it: trimming an already-trimmed string changes nothing |
| `Messages.AuthorOf` | src/frontend/app.js:94 | a stored message gets the user style exactly when its type is `human` or `user`; every other type gets the AI style |
| `Messages.Render` | src/frontend/app.js:92-99 | the entry has the type's style and the stored content, and an absent content shows as empty text |
| `Messages.RenderAll` | src/frontend/app.js:205 | replaying a history gives one entry per stored message, in stored order |
| `Messages.TitleFor` | src/frontend/app.js:199 | the title is never empty: it is the chat name when that is non-empty, otherwise `New Chat` |
| `Events.Classify` | src/frontend/app.js:155-180 | a chunk is accepted exactly for a non-empty payload on the default or `chunk` channel, and carries that payload; the turn ends exactly on a `system` event whose trimmed payload is `end`; every `tool_call` event shows its payload, or `""` when absent; anything else is ignored |
| `Events.ChunkChannelsAgree` | src/frontend/app.js:156-166 | the default channel and the `chunk` channel classify every payload identically, as a chunk or as ignored |
| `Events.EndSignalShape` | src/frontend/app.js:168-169 | a `system` payload ends the turn exactly when it is the word `end` with only white space around it |
| `Events.PaddedEndIsEndSignal` | src/frontend/app.js:169 | a payload `" end\n"` is an end signal |
| `Events.OtherPayloadsAreNotEndSignals` | src/frontend/app.js:169 | `End`, `ending`, `ping` and an absent payload are not end signals |
| `Session.SetSendDisabled` | src/frontend/app.js:19-22 | the Send flag becomes exactly the argument, and no other part of the client changes |
| `Session.CloseStream` | src/frontend/app.js:188-195 | whether or not a stream was open, afterwards none is and Send is enabled; nothing else changes |
| `Session.CloseStreamIdempotent` | src/frontend/app.js:188-195 | closing twice is closing once |
| `Session.OpenStream` | src/frontend/app.js:150-186 | afterwards exactly the new stream is open, bound to the thread, with a serial no earlier stream had and a fresh turn; Send is disabled; one subscription request is issued; nothing else changes |
| `Session.OpenSupersedes` | src/frontend/app.js:150-154 | opening from any state equals opening after an explicit close: no earlier stream survives |
| `Session.EnsureBubble` | src/frontend/app.js:214-216 | a turn without a bubble gets exactly one new empty AI entry at the end of the list; a turn with one is left as it is |
| `Session.OnChunk` | src/frontend/app.js:213-225 | the chunk is appended to the turn's bubble, created first if missing; no other entry changes; the tool indicator is gone afterwards; the stream and Send are untouched |
| `Session.OnToolCall` | src/frontend/app.js:236-259 | the turn has a bubble afterwards, created empty if missing; the single indicator shows the trimmed payload, whatever it showed before; the messages, the stream and Send are otherwise untouched |
| `Session.FinishTurn` | src/frontend/app.js:168-174 | the end signal closes the stream, enables Send, keeps the displayed messages, and requests the thread list |
| `Session.Dispatch` | src/frontend/app.js:155-180 | running a listener keeps the representation invariant and keeps Send disabled exactly while a stream is open; an event the listener's guard rejects (an empty chunk, a `system` payload other than `end`) leaves the client exactly as it was |
| `Session.Deliver` | src/frontend/app.js:150-186 | only the open stream's events have an effect; an event never changes the active thread, the title, the composer or the stream count |
| `Flows.ClearMessages` | src/frontend/app.js:101-103 | the list is emptied; a bubble the open stream holds becomes detached; the stream and everything else stay |
| `Flows.SelectThread` | src/frontend/app.js:197-261 | the thread becomes active with its title; the list is exactly the replayed history, in order; then a fresh stream for that thread is open and Send disabled. If the history request fails, the list is empty, no stream is opened, and Send and the stream count are as before; an open stream keeps its serial, thread and indicator, and its bubble, if any, becomes detached |
| `Flows.TargetThread` | src/frontend/app.js:281-287 | a submission goes to the active thread, or to the freshly minted id when none is active |
| `Flows.Submit` | src/frontend/app.js:275-344 | blank trimmed input changes nothing. Otherwise the target thread becomes active, the composer is cleared, and the trimmed text is appended as a human entry. The post request comes before the stream subscription, and the stream opens only if the post succeeded; after a failed post the stream, Send and the stream count are as before |
| `Flows.NewChat` | src/frontend/app.js:348-354 | no thread is active, the title is `New Chat`, and the list is empty; the composer, Send, the request log and the stream count are unchanged; an open stream stays open with its serial, thread and indicator, and its bubble, if any, becomes detached |
| `Flows.Step` | src/frontend/app.js:150-354 | every user action and every event keeps the representation invariant and the input lock |
| `Flows.Run` | src/frontend/app.js:150-354 | over any sequence of actions and events, Send stays disabled exactly while a stream is open |
| `Properties.DeliverAll` | src/frontend/app.js:155-180 | a sequence of events keeps the representation invariant and the input lock |
| `Properties.AccumulateStep` | src/frontend/app.js:213-258 | one more event that is not an end signal keeps the turn's display equal to the reference definitions |
| `Properties.TurnAccumulates` | src/frontend/app.js:213-258 | from a freshly opened stream, until an end signal: the stream stays open; at most one AI entry is added after everything displayed, exactly when some chunk or tool call arrived; its text is the in-order concatenation of the accepted chunk payloads from either channel; the indicator shows the last tool call's trimmed text unless a chunk followed it |
| `Properties.ClosedIgnoresAll` | src/frontend/app.js:188-192 | once the stream is closed, no sequence of events changes anything |
| `Properties.SupersededStreamIsSilent` | src/frontend/app.js:150-151 | events arriving on any stream other than the open one change nothing |
| `Properties.EndOfTurn` | src/frontend/app.js:168-174 | an end signal closes the stream, enables Send and keeps the messages; a second end signal and any later event are no-ops |
| `Properties.OtherSystemPayloadsIgnored` | src/frontend/app.js:168-174 | a `system` event on the open stream whose payload is not an end signal changes nothing: the stream stays open, Send is unchanged, and the bubble and indicator are kept |
| `Properties.HelloWorldText` | src/frontend/app.js:156-166 | the chunks `Hel`, `lo`, ` world`, across both chunk channels, are accepted and concatenate to `Hello world` |
| `Properties.ChunksFromEitherChannelConcatenate` | src/frontend/app.js:156-166 | delivering those three chunks after an open adds one AI entry `Hello world` |
| `Properties.SearchReadAnswerShows` | src/frontend/app.js:236-258 | the reference indicator after `tool_call searching`, `tool_call reading`, `chunk answer` is `searching`, then `reading`, then none |
| `Properties.ToolIndicatorIsSuperseded` | src/frontend/app.js:219-258 | the client's single indicator goes `searching`, then `reading`, then is removed by the chunk, and the bubble holds `answer` alone |
| `Properties.HistoryThenLive` | src/frontend/app.js:198-211 | after selecting a thread, the list is the history in order, followed by at most the turn's AI entry, never interleaved before it |
| `Properties.SubmitThenLive` | src/frontend/app.js:289-301 | after a successful send, the list is the earlier list, then the human entry, then at most the turn's AI entry |
| `Properties.MintOnlyOnFirstSend` | src/frontend/app.js:281-287 | a draft adopts the minted id on its first send, and the next send reuses that thread without minting |
| `Properties.NewChatKeepsStreamOpen` | src/frontend/app.js:348-354 | after the new-chat button, a chunk from the still-open stream of a turn without a bubble appears as the draft's only entry |
| `Properties.NewChatDetachesBubble` | src/frontend/app.js:348-354 | after the new-chat button, a chunk from the still-open stream of a turn that already had a bubble goes to the detached bubble, and the draft's list stays empty |
| `Properties.SendLockTracksStream` | src/frontend/app.js:19-22 | from the initial page, after any sequence of actions and events, Send is disabled exactly while a stream is open |

## Left out

- HTTP calls (`fetchThreads`, `fetchThreadMessages`, `sendMessage`, `deleteThread`, `renameThread`, lines 105-148) are network I/O. They appear only as entries in the request log. Their answers are parameters: the history, or its failure; and whether the post succeeded.
- The thread list: fetching, sorting by `Date.parse`, `fmtDate`, rendering, and `setActiveThreadInSidebar`. These depend on host date parsing and the DOM.
- Rename and delete flows (lines 45-81). They use `prompt`/`confirm` and best-effort CRUD.
- The initial bootstrap (lines 357-366). It is `selectThread` on the first listed thread, which `Flows.SelectThread` covers.
- DOM mechanics: templates, `cloneNode`, scrolling, `autoGrowTextarea`, `aria-disabled`, and the spinner element.
- The `aiBubble.parentElement` null check (lines 240-241). The bubble always sits inside its message node, so the check never fires.
- The `toolLoader.parentElement` test before removing the indicator. The indicator is appended to the message node when it is created, so the test always passes, and the model always removes it.
- The text of a detached bubble, meaning one cleared off the list while its stream stays open. Chunks appended to it are no longer displayed, and the model does not track them.
- An indicator left by a superseded turn. If a stream is superseded without clearing the list, the old indicator node stays in the page. The model drops it with the turn's state.
- `crypto.randomUUID` and its fallback (lines 282-284). The fresh id is a parameter, and uniqueness of minted ids is not proved.
- Transport errors and the browser's automatic reconnection. The code installs no error handler, so the model has no error event.
- Interleaving across `await` points. Each flow is one atomic step.
- `typeof ev.data === "string"`: `ev.data` is modelled as an optional string, so a non-string payload is not representable.
- The Send button's initial state, which comes from the page markup. `Session.Initial` takes it as enabled.
- The Python server files. They only wire up FastAPI, LangChain/LangGraph, SQLAlchemy and Redis.
