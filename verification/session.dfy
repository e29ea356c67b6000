/** The session controller: the module-global `source`, `openStream`,
    `closeStream`, `setSendDisabled`, and the three callbacks the client passes to
    `openStream` (the per-turn response accumulator). */
module Session {
  import opened Wrappers
  import opened Text
  import opened Messages
  import opened Events

  /** What the callbacks' `aiBubble` variable refers to once it is set. */
  datatype Bubble =
    | Attached(index: nat)  // the bubble is the displayed entry `messages[index]`
    | Detached              // the list was cleared under it; what is appended to it is no longer shown

  /** The per-turn state the callbacks of one `openStream` call share: the AI
      bubble and the tool-call indicator, with the indicator's displayed text. */
  datatype Turn = Turn(bubble: Option<Bubble>, tool: Option<string>)

  /** The state right after `openStream`: no bubble and no indicator yet. */
  const FreshTurn := Turn(None, None)

  /** The global `source`: no stream, or the one open `EventSource`, bound to a
      thread and numbered by when it was opened. */
  datatype Source = Closed | Open(serial: nat, threadId: string, turn: Turn)

  /** The requests the client issues; their answers are parameters of the flows. */
  datatype Request =
    | ListThreads                                 // GET /threads
    | GetThread(threadId: string)                 // GET /thread?thread_id=
    | PostMessage(threadId: string, text: string) // POST /chat/message
    | Subscribe(threadId: string)                 // GET /chat/stream?thread_id= (EventSource)

  /** The whole client: the active thread, the chat title, the composer text, the
      displayed messages, the stream, the Send button's disabled flag, how many
      streams have ever been opened, and the requests sent so far. */
  datatype Client = Client(
    active: Option<string>,
    title: string,
    draft: string,
    messages: seq<Message>,
    source: Source,
    sendDisabled: bool,
    streams: nat,
    requests: seq<Request>)

  /** The page before any interaction: no thread, no stream, Send enabled. */
  const Initial := Client(None, NewChatTitle, "", [], Closed, false, 0, [])

  /** An attached bubble is a displayed AI entry. */
  predicate BubbleFits(b: Option<Bubble>, messages: seq<Message>)
  {
    b.Some? && b.value.Attached? ==> b.value.index < |messages| && messages[b.value.index].author == Ai
  }

  /** The representation invariant: the open stream is the newest one, its bubble
      fits the displayed list, and an indicator only exists next to a bubble. */
  predicate Valid(c: Client)
  {
    c.source.Open? ==>
      && c.source.serial + 1 == c.streams
      && BubbleFits(c.source.turn.bubble, c.messages)
      && (c.source.turn.tool.Some? ==> c.source.turn.bubble.Some?)
  }

  /** The input lock: Send is disabled exactly while a stream is open. */
  predicate LockHeld(c: Client)
  {
    c.sendDisabled <==> c.source.Open?
  }

  /** `setSendDisabled`: the flag becomes the argument; nothing else changes. */
  function SetSendDisabled(c: Client, disabled: bool): (r: Client)
    ensures r.sendDisabled == disabled
    ensures r.(sendDisabled := c.sendDisabled) == c
  {
    c.(sendDisabled := disabled)
  }

  /** `closeStream`: whether or not a stream is open, afterwards none is and Send
      is enabled; nothing else changes. */
  function CloseStream(c: Client): (r: Client)
    ensures r.source == Closed && !r.sendDisabled
    ensures r.(source := c.source, sendDisabled := c.sendDisabled) == c
    ensures Valid(r) && LockHeld(r)
  {
    var c' := if c.source.Open? then c.(source := Closed) else c;
    SetSendDisabled(c', false)
  }

  /** `openStream`: the previous stream is closed first, a new one bound to
      `threadId` is opened with a fresh turn, and Send is left disabled. */
  function OpenStream(c: Client, threadId: string): (r: Client)
    ensures r.source == Open(c.streams, threadId, FreshTurn)
    ensures r.streams == c.streams + 1 && r.sendDisabled
    ensures r.requests == c.requests + [Subscribe(threadId)]
    ensures r.(source := c.source, sendDisabled := c.sendDisabled, streams := c.streams, requests := c.requests) == c
    ensures Valid(r) && LockHeld(r)
  {
    var closed := CloseStream(c);
    var subscribed := closed.(requests := closed.requests + [Subscribe(threadId)]);
    var locked := SetSendDisabled(subscribed, true);
    locked.(source := Open(c.streams, threadId, FreshTurn), streams := c.streams + 1)
  }

  /** `closeStream` is idempotent. */
  lemma CloseStreamIdempotent(c: Client)
    ensures CloseStream(CloseStream(c)) == CloseStream(c)
  {
  }

  /** Opening supersedes: opening from any state is the same as opening after an
      explicit close, so no earlier stream survives. */
  lemma OpenSupersedes(c: Client, threadId: string)
    ensures OpenStream(c, threadId) == OpenStream(CloseStream(c), threadId)
  {
  }

  /** Replaces the open stream's per-turn state. */
  function WithTurn(c: Client, t: Turn): (r: Client)
    requires c.source.Open?
  {
    c.(source := c.source.(turn := t))
  }

  /** The callbacks touch only the displayed list and the per-turn state: the same
      stream stays open and everything else is as it was. */
  predicate OnlyTurnChanged(c: Client, r: Client)
  {
    && c.source.Open? && r.source.Open?
    && r.source.serial == c.source.serial && r.source.threadId == c.source.threadId
    && r.(messages := c.messages, source := c.source) == c
  }

  /** `if (!aiBubble) aiBubble = appendMessage({type: "ai", content: ""})`, shared
      by the chunk and the tool-call callbacks. */
  function EnsureBubble(c: Client): (r: Client)
    requires Valid(c) && c.source.Open?
    ensures Valid(r) && OnlyTurnChanged(c, r)
    ensures r.source.turn.bubble.Some? && r.source.turn.tool == c.source.turn.tool
    ensures c.source.turn.bubble.Some? ==> r == c
    ensures c.source.turn.bubble.None? ==>
      r.messages == c.messages + [Message(Ai, "")] && r.source.turn.bubble == Some(Attached(|c.messages|))
  {
    if c.source.turn.bubble.Some? then c
    else
      var shown := c.(messages := c.messages + [Render(StoredMessage("ai", Some("")))]);
      WithTurn(shown, c.source.turn.(bubble := Some(Attached(|c.messages|))))
  }

  /** The chunk callback: the chunk is appended to the turn's bubble, which is
      created first if the turn has none, and the tool indicator is removed. */
  function OnChunk(c: Client, chunk: string): (r: Client)
    requires Valid(c) && c.source.Open?
    ensures Valid(r) && OnlyTurnChanged(c, r)
    ensures r.source.turn.tool.None?
    ensures match c.source.turn.bubble
      case None =>
        r.messages == c.messages + [Message(Ai, chunk)] && r.source.turn.bubble == Some(Attached(|c.messages|))
      case Some(Attached(i)) =>
        r.messages == c.messages[i := Message(Ai, c.messages[i].text + chunk)] && r.source.turn.bubble == c.source.turn.bubble
      case Some(Detached) =>
        r.messages == c.messages && r.source.turn.bubble == c.source.turn.bubble
  {
    var c' := EnsureBubble(c);
    assert "" + chunk == chunk;
    assert c.source.turn.bubble.None? ==>
      c'.messages[|c.messages| := Message(Ai, "" + chunk)] == c.messages + [Message(Ai, chunk)];
    var written := match c'.source.turn.bubble.value
      case Attached(i) => c'.(messages := c'.messages[i := c'.messages[i].(text := c'.messages[i].text + chunk)])
      case Detached => c';
    WithTurn(written, written.source.turn.(tool := None))
  }

  /** The tool-call callback: the turn gets a bubble if it has none, the single
      indicator is created if missing, and its text becomes the trimmed payload,
      replacing whatever it showed. The stream and Send are untouched. */
  function OnToolCall(c: Client, text: string): (r: Client)
    requires Valid(c) && c.source.Open?
    ensures Valid(r) && OnlyTurnChanged(c, r)
    ensures r.source.turn.tool == Some(Trim(text))
    ensures r.source.turn.bubble.Some?
    ensures c.source.turn.bubble.None? ==>
      r.messages == c.messages + [Message(Ai, "")] && r.source.turn.bubble == Some(Attached(|c.messages|))
    ensures c.source.turn.bubble.Some? ==>
      r.messages == c.messages && r.source.turn.bubble == c.source.turn.bubble
  {
    var c' := EnsureBubble(c);
    WithTurn(c', c'.source.turn.(tool := Some(Trim(text))))
  }

  /** The `system` listener on `end`: `onEnd` drops the bubble and the indicator
      and asks for the thread list, then the stream is closed and Send enabled.
      The displayed messages stay as they are. */
  function FinishTurn(c: Client): (r: Client)
    requires Valid(c) && c.source.Open?
    ensures r.source == Closed && !r.sendDisabled
    ensures r.messages == c.messages
    ensures r.requests == c.requests + [ListThreads]
    ensures r.(source := c.source, sendDisabled := c.sendDisabled, requests := c.requests) == c
  {
    var reset := WithTurn(c, FreshTurn);
    var refreshed := reset.(requests := reset.requests + [ListThreads]);
    SetSendDisabled(CloseStream(refreshed), false)
  }

  /** Runs the open stream's listener for a classified event. An event the
      listener's guard rejects leaves the client exactly as it was. */
  function Dispatch(c: Client, a: Action): (r: Client)
    requires Valid(c) && c.source.Open?
    ensures Valid(r)
    ensures LockHeld(c) ==> LockHeld(r)
    ensures a == Ignore ==> r == c
  {
    match a
    case AppendChunk(t) => OnChunk(c, t)
    case ShowTool(t) => OnToolCall(c, t)
    case EndTurn => FinishTurn(c)
    case Ignore => c
  }

  /** An event arriving on the stream numbered `serial`. Only the open stream's
      listeners run: a closed `EventSource` delivers nothing. Events never change
      the active thread, the title, the composer or the stream count. */
  function Deliver(c: Client, serial: nat, e: Event): (r: Client)
    requires Valid(c)
    ensures Valid(r)
    ensures LockHeld(c) ==> LockHeld(r)
    ensures !(c.source.Open? && c.source.serial == serial) ==> r == c
    ensures r.(messages := c.messages, source := c.source, sendDisabled := c.sendDisabled, requests := c.requests) == c
  {
    if c.source.Open? && c.source.serial == serial then Dispatch(c, Classify(e)) else c
  }
}
