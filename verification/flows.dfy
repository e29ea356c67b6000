/** The thread selection coordinator and the composer: `selectThread`, the
    submit handler, the new-chat handler, and the client as a whole driven by
    user actions and stream events. */
module Flows {
  import opened Wrappers
  import opened Text
  import opened Messages
  import opened Events
  import opened Session

  /** `clearMessages`: the list is emptied. A bubble the open stream still refers
      to is detached from the display, and the stream itself is untouched. */
  function ClearMessages(c: Client): (r: Client)
    requires Valid(c)
    ensures Valid(r) && r.messages == []
    ensures r.source.Open? <==> c.source.Open?
    ensures c.source.Open? ==>
      && r.source.serial == c.source.serial && r.source.threadId == c.source.threadId
      && r.source.turn.tool == c.source.turn.tool
      && (c.source.turn.bubble.None? <==> r.source.turn.bubble.None?)
      && (r.source.turn.bubble.Some? ==> r.source.turn.bubble == Some(Detached))
    ensures r.(messages := c.messages, source := c.source) == c
  {
    var emptied := c.(messages := []);
    if c.source.Open? && c.source.turn.bubble.Some? then
      WithTurn(emptied, c.source.turn.(bubble := Some(Detached)))
    else
      emptied
  }

  /** `!currentThreadId` is false: a thread is active (an empty id counts as none). */
  predicate HasActive(c: Client)
  {
    c.active.Some? && c.active.value != ""
  }

  /** `selectThread(threadId, chatName)` with the history request's outcome as a
      parameter (`None` when the request fails): the thread becomes active, the
      list is cleared, the history is replayed in order, and only then is a stream
      opened for the thread. A failed history request stops the flow after the
      clear, leaving any earlier stream open. */
  function SelectThread(c: Client, threadId: string, chatName: Option<string>,
                        history: Option<seq<StoredMessage>>): (r: Client)
    requires Valid(c)
    ensures Valid(r) && (LockHeld(c) ==> LockHeld(r))
    ensures r.active == Some(threadId) && r.title == TitleFor(chatName) && r.draft == c.draft
    ensures history.Some? ==>
      && r.messages == RenderAll(history.value)
      && r.source == Open(c.streams, threadId, FreshTurn) && r.sendDisabled
      && r.requests == c.requests + [GetThread(threadId), Subscribe(threadId)]
    ensures history.None? ==>
      && r.messages == []
      && (r.source.Open? <==> c.source.Open?) && r.sendDisabled == c.sendDisabled
      && r.streams == c.streams
      && r.requests == c.requests + [GetThread(threadId)]
    ensures history.None? && c.source.Open? ==>
      && r.source.serial == c.source.serial && r.source.threadId == c.source.threadId
      && r.source.turn.tool == c.source.turn.tool
      && (c.source.turn.bubble.None? ==> r.source.turn.bubble.None?)
      && (c.source.turn.bubble.Some? ==> r.source.turn.bubble == Some(Detached))
  {
    var selected := ClearMessages(c.(active := Some(threadId), title := TitleFor(chatName)));
    var asked := selected.(requests := selected.requests + [GetThread(threadId)]);
    match history
    case None => asked
    case Some(h) =>
      var replayed := asked.(messages := asked.messages + RenderAll(h));
      assert replayed.messages == RenderAll(h);
      OpenStream(replayed, threadId)
  }

  /** The thread a submission goes to: the active one, or the freshly minted id
      when none is active. */
  function TargetThread(c: Client, freshId: string): (id: string)
    ensures HasActive(c) ==> id == c.active.value
    ensures !HasActive(c) ==> id == freshId
  {
    if HasActive(c) then c.active.value else freshId
  }

  /** The composer's submit handler. `freshId` stands for `crypto.randomUUID()`
      and `posted` for whether `POST /chat/message` succeeded. Blank input does
      nothing. Otherwise a thread is adopted if none is active, the human message
      is shown and the composer cleared, the message is posted, and only after a
      successful post is the stream for the thread opened. */
  function Submit(c: Client, freshId: string, posted: bool): (r: Client)
    requires Valid(c)
    ensures Valid(r) && (LockHeld(c) ==> LockHeld(r))
    ensures Trim(c.draft) == "" ==> r == c
    ensures Trim(c.draft) != "" ==>
      var id := TargetThread(c, freshId);
      var text := Trim(c.draft);
      && r.active == Some(id) && r.draft == ""
      && r.title == (if HasActive(c) then c.title else NewChatTitle)
      && r.messages == c.messages + [Message(User, text)]
      && (posted ==>
            && r.requests == c.requests + [PostMessage(id, text), Subscribe(id)]
            && r.source == Open(c.streams, id, FreshTurn) && r.sendDisabled)
      && (!posted ==>
            && r.requests == c.requests + [PostMessage(id, text)]
            && r.source == c.source && r.sendDisabled == c.sendDisabled && r.streams == c.streams)
  {
    var value := Trim(c.draft);
    if value == "" then c
    else
      var adopted := if HasActive(c) then c else c.(active := Some(freshId), title := NewChatTitle);
      var id := adopted.active.value;
      var shown := adopted.(messages := adopted.messages + [Render(StoredMessage("human", Some(value)))], draft := "");
      var sent := shown.(requests := shown.requests + [PostMessage(id, value)]);
      if posted then OpenStream(sent, id) else sent
  }

  /** The new-chat handler: back to a draft with no active thread and an empty
      list. It does not close the stream: an open one keeps delivering, and Send
      stays as it was. */
  function NewChat(c: Client): (r: Client)
    requires Valid(c)
    ensures Valid(r) && (LockHeld(c) ==> LockHeld(r))
    ensures r.active == None && r.title == NewChatTitle && r.messages == []
    ensures r.draft == c.draft
    ensures (r.source.Open? <==> c.source.Open?) && r.sendDisabled == c.sendDisabled
    ensures r.requests == c.requests && r.streams == c.streams
    ensures c.source.Open? ==>
      && r.source.serial == c.source.serial && r.source.threadId == c.source.threadId
      && r.source.turn.tool == c.source.turn.tool
      && (c.source.turn.bubble.None? ==> r.source.turn.bubble.None?)
      && (c.source.turn.bubble.Some? ==> r.source.turn.bubble == Some(Detached))
  {
    ClearMessages(c.(active := None, title := NewChatTitle))
  }

  /** Everything that can happen to the client, one step at a time. */
  datatype Input =
    | Arrive(serial: nat, event: Event)   // an event on the stream numbered `serial`
    | Select(threadId: string, chatName: Option<string>, history: Option<seq<StoredMessage>>)
    | Send(freshId: string, posted: bool)
    | StartDraft                          // the new-chat button
    | Type(text: string)                  // the composer's content changes

  function Step(c: Client, i: Input): (r: Client)
    requires Valid(c)
    ensures Valid(r) && (LockHeld(c) ==> LockHeld(r))
    ensures r.streams >= c.streams
  {
    match i
    case Arrive(serial, e) => Deliver(c, serial, e)
    case Select(id, name, h) => SelectThread(c, id, name, h)
    case Send(id, posted) => Submit(c, id, posted)
    case StartDraft => NewChat(c)
    case Type(text) => c.(draft := text)
  }

  /** The client after a sequence of inputs. The lock keeps tracking the stream
      and the representation invariant holds throughout. */
  function Run(c: Client, inputs: seq<Input>): (r: Client)
    requires Valid(c)
    ensures Valid(r) && (LockHeld(c) ==> LockHeld(r))
    ensures r.streams >= c.streams
    decreases |inputs|
  {
    if inputs == [] then c else Run(Step(c, inputs[0]), inputs[1..])
  }
}
