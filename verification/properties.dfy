/** Properties of whole event sequences on one stream, and of the flows that
    open streams. */
module Properties {
  import opened Wrappers
  import opened Text
  import opened Messages
  import opened Events
  import opened Session
  import opened Flows

  /** The events `es`, in order, arriving on the stream numbered `serial`. */
  function DeliverAll(c: Client, serial: nat, es: seq<Event>): (r: Client)
    requires Valid(c)
    ensures Valid(r) && (LockHeld(c) ==> LockHeld(r))
    decreases |es|
  {
    if es == [] then c else Deliver(DeliverAll(c, serial, es[..|es| - 1]), serial, es[|es| - 1])
  }

  // Reference definitions, event by event, of what a turn should show.

  /** The accepted chunk payloads of `es`, concatenated in arrival order. */
  function ChunkText(es: seq<Event>): string
  {
    if es == [] then ""
    else
      var a := Classify(es[|es| - 1]);
      ChunkText(es[..|es| - 1]) + (if a.AppendChunk? then a.text else "")
  }

  /** Some event of `es` needs the bubble: an accepted chunk or a tool call. */
  predicate NeedsBubble(es: seq<Event>)
  {
    if es == [] then false
    else
      var a := Classify(es[|es| - 1]);
      NeedsBubble(es[..|es| - 1]) || a.AppendChunk? || a.ShowTool?
  }

  /** The indicator after `es`: the trimmed payload of the last tool call, unless
      an accepted chunk came after it. */
  function Indicator(es: seq<Event>): Option<string>
  {
    if es == [] then None
    else
      match Classify(es[|es| - 1])
      case AppendChunk(_) => None
      case ShowTool(t) => Some(Trim(t))
      case _ => Indicator(es[..|es| - 1])
  }

  predicate NoEnd(es: seq<Event>)
  {
    forall k :: 0 <= k < |es| ==> !Classify(es[k]).EndTurn?
  }

  /** `r` is what the accumulator should show after `es` arrived on the stream
      that `c` had freshly opened: the same stream is open and everything but the
      displayed list and the per-turn state is as in `c`; the indicator is the
      last tool call's trimmed text unless a chunk followed it; and exactly when
      some chunk or tool call arrived, one AI entry follows everything `c`
      displayed, holding the accepted chunk payloads in order. */
  ghost predicate Accumulated(c: Client, r: Client, es: seq<Event>)
    requires c.source.Open?
  {
    && Valid(r) && r.source.Open?
    && r.source.serial == c.source.serial && r.source.threadId == c.source.threadId
    && r.(messages := c.messages, source := c.source) == c
    && r.source.turn.tool == Indicator(es)
    && (NeedsBubble(es) ==>
          r.source.turn.bubble == Some(Attached(|c.messages|)) && r.messages == c.messages + [Message(Ai, ChunkText(es))])
    && (!NeedsBubble(es) ==>
          r.source.turn.bubble.None? && r.messages == c.messages && ChunkText(es) == "")
  }

  /** One more event, not an end signal, keeps the accumulator in shape. */
  lemma AccumulateStep(c: Client, p: Client, es: seq<Event>)
    requires c.source.Open? && |es| > 0 && !Classify(es[|es| - 1]).EndTurn?
    requires Accumulated(c, p, es[..|es| - 1])
    ensures Accumulated(c, Deliver(p, c.source.serial, es[|es| - 1]), es)
  {
    match Classify(es[|es| - 1])
    case AppendChunk(_) => AccumulateChunk(c, p, es);
    case ShowTool(_) => AccumulateTool(c, p, es);
    case Ignore => AccumulateIgnored(c, p, es);
  }

  lemma AccumulateChunk(c: Client, p: Client, es: seq<Event>)
    requires c.source.Open? && |es| > 0 && Classify(es[|es| - 1]).AppendChunk?
    requires Accumulated(c, p, es[..|es| - 1])
    ensures Accumulated(c, Deliver(p, c.source.serial, es[|es| - 1]), es)
  {
    var init := es[..|es| - 1];
    var t := Classify(es[|es| - 1]).text;
    var r := Deliver(p, c.source.serial, es[|es| - 1]);
    assert ChunkText(es) == ChunkText(init) + t;
    if NeedsBubble(init) {
      var m := c.messages + [Message(Ai, ChunkText(init))];
      assert r.messages == m[|c.messages| := Message(Ai, ChunkText(init) + t)];
      assert r.messages == c.messages + [Message(Ai, ChunkText(es))];
    } else {
      assert ChunkText(es) == t;
    }
  }

  lemma AccumulateIgnored(c: Client, p: Client, es: seq<Event>)
    requires c.source.Open? && |es| > 0 && Classify(es[|es| - 1]).Ignore?
    requires Accumulated(c, p, es[..|es| - 1])
    ensures Accumulated(c, Deliver(p, c.source.serial, es[|es| - 1]), es)
  {
    var init := es[..|es| - 1];
    assert Deliver(p, c.source.serial, es[|es| - 1]) == p;
    assert ChunkText(es) == ChunkText(init) && Indicator(es) == Indicator(init);
    assert NeedsBubble(es) == NeedsBubble(init);
  }

  lemma AccumulateTool(c: Client, p: Client, es: seq<Event>)
    requires c.source.Open? && |es| > 0 && Classify(es[|es| - 1]).ShowTool?
    requires Accumulated(c, p, es[..|es| - 1])
    ensures Accumulated(c, Deliver(p, c.source.serial, es[|es| - 1]), es)
  {
    assert ChunkText(es) == ChunkText(es[..|es| - 1]);
  }

  /** The accumulator over a whole turn. From a freshly opened stream, as long as
      no end signal arrives: the stream stays open and Send, the active thread,
      the title and the composer stay as they were; at most one AI entry is added,
      after everything that was displayed, exactly when some chunk or tool call
      arrived; its text is the in-order concatenation of the accepted chunk
      payloads, whichever channel each came on; and the indicator is the last
      tool call's trimmed text unless a chunk followed it. */
  lemma {:induction false} TurnAccumulates(c: Client, es: seq<Event>)
    requires Valid(c) && c.source.Open? && c.source.turn == FreshTurn
    requires NoEnd(es)
    ensures Accumulated(c, DeliverAll(c, c.source.serial, es), es)
    decreases |es|
  {
    if es != [] {
      var init := es[..|es| - 1];
      assert NoEnd(init) by {
        forall k | 0 <= k < |init| ensures !Classify(init[k]).EndTurn? {
          assert init[k] == es[k];
        }
      }
      TurnAccumulates(c, init);
      AccumulateStep(c, DeliverAll(c, c.source.serial, init), es);
    }
  }

  /** Once the stream is closed, nothing that arrives changes anything. */
  lemma {:induction false} ClosedIgnoresAll(c: Client, serial: nat, es: seq<Event>)
    requires Valid(c) && c.source.Closed?
    ensures DeliverAll(c, serial, es) == c
    decreases |es|
  {
    if es != [] {
      ClosedIgnoresAll(c, serial, es[..|es| - 1]);
    }
  }

  /** Events of a superseded stream are dropped: after a stream is opened, events
      on any earlier stream change nothing. */
  lemma {:induction false} SupersededStreamIsSilent(c: Client, serial: nat, es: seq<Event>)
    requires Valid(c) && c.source.Open? && serial != c.source.serial
    ensures DeliverAll(c, serial, es) == c
    decreases |es|
  {
    if es != [] {
      SupersededStreamIsSilent(c, serial, es[..|es| - 1]);
    }
  }

  /** An end signal ends the turn: the stream is closed, Send is enabled, the
      displayed messages are kept, and a second end signal, like any later event,
      is a no-op. */
  lemma EndOfTurn(c: Client, e: Event, later: seq<Event>)
    requires Valid(c) && c.source.Open? && Classify(e).EndTurn?
    ensures var r := Deliver(c, c.source.serial, e);
      && r.source == Closed && !r.sendDisabled && LockHeld(r)
      && r.messages == c.messages && r.requests == c.requests + [ListThreads]
      && Deliver(r, c.source.serial, e) == r
      && DeliverAll(r, c.source.serial, later) == r
  {
    var r := Deliver(c, c.source.serial, e);
    ClosedIgnoresAll(r, c.source.serial, later);
  }

  /** A `system` event on the open stream whose payload is not an end signal
      changes nothing: no bubble reset, no indicator change, no lock release. */
  lemma OtherSystemPayloadsIgnored(c: Client, data: Option<string>)
    requires Valid(c) && c.source.Open? && !IsEndSignal(data)
    ensures Deliver(c, c.source.serial, Event(System, data)) == c
  {
    SystemIgnoresNonEnd(data);
    assert Dispatch(c, Ignore) == c;
  }

  // The reference definitions, one event appended at a time.

  lemma ChunkTextSnoc(es: seq<Event>, e: Event)
    ensures ChunkText(es + [e]) == ChunkText(es) + (if Classify(e).AppendChunk? then Classify(e).text else "")
  {
    assert (es + [e])[..|es|] == es;
  }

  lemma NeedsBubbleSnoc(es: seq<Event>, e: Event)
    ensures NeedsBubble(es + [e]) <==> NeedsBubble(es) || Classify(e).AppendChunk? || Classify(e).ShowTool?
  {
    assert (es + [e])[..|es|] == es;
  }

  lemma IndicatorSnoc(es: seq<Event>, e: Event)
    ensures Indicator(es + [e]) == match Classify(e)
      case AppendChunk(_) => None
      case ShowTool(t) => Some(Trim(t))
      case _ => Indicator(es)
  {
    assert (es + [e])[..|es|] == es;
  }

  lemma NoEndSnoc(es: seq<Event>, e: Event)
    ensures NoEnd(es + [e]) <==> NoEnd(es) && !Classify(e).EndTurn?
  {
    if NoEnd(es) && !Classify(e).EndTurn? {
      forall k | 0 <= k < |es + [e]| ensures !Classify((es + [e])[k]).EndTurn? {
        if k < |es| {
          assert (es + [e])[k] == es[k];
        }
      }
    } else if NoEnd(es + [e]) {
      assert (es + [e])[|es|] == e;
      forall k | 0 <= k < |es| ensures !Classify(es[k]).EndTurn? {
        assert (es + [e])[k] == es[k];
      }
    }
  }

  /** The prefixes of a three-event sequence, each one event longer than the last. */
  lemma ThreeEvents(e0: Event, e1: Event, e2: Event)
    ensures var es := [e0, e1, e2];
      && es[..1] == [] + [e0] && es[..2] == [e0] + [e1] && es == [e0, e1] + [e2]
  {
  }

  const HelloWorld := [Event(Default, Some("Hel")), Event(Chunk, Some("lo")), Event(Default, Some(" world"))]

  lemma HelloWorldText()
    ensures NoEnd(HelloWorld) && NeedsBubble(HelloWorld) && ChunkText(HelloWorld) == "Hello world"
  {
    var e0, e1, e2 := HelloWorld[0], HelloWorld[1], HelloWorld[2];
    ThreeEvents(e0, e1, e2);
    assert NoEnd([]) && !NeedsBubble([]) && ChunkText([]) == "";
    NoEndSnoc([], e0); NoEndSnoc([e0], e1); NoEndSnoc([e0, e1], e2);
    NeedsBubbleSnoc([], e0);
    NeedsBubbleSnoc([e0], e1);
    NeedsBubbleSnoc([e0, e1], e2);
    ChunkTextSnoc([], e0); ChunkTextSnoc([e0], e1); ChunkTextSnoc([e0, e1], e2);
  }

  /** Chunks `Hel`, `lo` and ` world`, on the default channel, the `chunk`
      channel and the default channel again, build one bubble `Hello world`. */
  lemma ChunksFromEitherChannelConcatenate(c: Client)
    requires Valid(c) && c.source.Open? && c.source.turn == FreshTurn
    ensures DeliverAll(c, c.source.serial, HelloWorld).messages == c.messages + [Message(Ai, "Hello world")]
  {
    HelloWorldText();
    TurnAccumulates(c, HelloWorld);
  }

  const SearchReadAnswer := [Event(ToolCall, Some("searching")), Event(ToolCall, Some("reading")), Event(Chunk, Some("answer"))]

  lemma SearchReadAnswerShows()
    ensures NoEnd(SearchReadAnswer[..1]) && Indicator(SearchReadAnswer[..1]) == Some("searching")
    ensures NoEnd(SearchReadAnswer[..2]) && Indicator(SearchReadAnswer[..2]) == Some("reading")
    ensures NoEnd(SearchReadAnswer) && Indicator(SearchReadAnswer) == None
    ensures NeedsBubble(SearchReadAnswer) && ChunkText(SearchReadAnswer) == "answer"
  {
    ToolsThenChunk("searching", "reading", "answer");
    SearchReadAnswerTrims();
  }

  lemma SearchReadAnswerTrims()
    ensures Trim("searching") == "searching" && Trim("reading") == "reading"
  {
    NotSpaceTrimsToItself("searching");
    NotSpaceTrimsToItself("reading");
  }

  /** Two tool calls then one chunk, for any payloads. */
  lemma ToolsThenChunk(a: string, b: string, x: string)
    requires x != ""
    ensures var es := [Event(ToolCall, Some(a)), Event(ToolCall, Some(b)), Event(Chunk, Some(x))];
      && NoEnd(es[..1]) && Indicator(es[..1]) == Some(Trim(a))
      && NoEnd(es[..2]) && Indicator(es[..2]) == Some(Trim(b))
      && NoEnd(es) && Indicator(es) == None
      && NeedsBubble(es) && ChunkText(es) == x
  {
    var e0, e1, e2 := Event(ToolCall, Some(a)), Event(ToolCall, Some(b)), Event(Chunk, Some(x));
    ThreeEvents(e0, e1, e2);
    assert NoEnd([]) && ChunkText([]) == "";
    NoEndSnoc([], e0); NoEndSnoc([e0], e1); NoEndSnoc([e0, e1], e2);
    IndicatorSnoc([], e0); IndicatorSnoc([e0], e1); IndicatorSnoc([e0, e1], e2);
    NeedsBubbleSnoc([e0, e1], e2);
    ChunkTextSnoc([], e0); ChunkTextSnoc([e0], e1); ChunkTextSnoc([e0, e1], e2);
  }

  /** Tool calls `searching` then `reading` then the chunk `answer`: the single
      indicator shows `searching`, then `reading`, then is gone, and the bubble
      holds `answer` alone. */
  lemma ToolIndicatorIsSuperseded(c: Client)
    requires Valid(c) && c.source.Open? && c.source.turn == FreshTurn
    ensures var s := c.source.serial;
      var afterOne := DeliverAll(c, s, SearchReadAnswer[..1]);
      var afterTwo := DeliverAll(c, s, SearchReadAnswer[..2]);
      var afterAll := DeliverAll(c, s, SearchReadAnswer);
      && afterOne.source.Open? && afterOne.source.turn.tool == Some("searching")
      && afterTwo.source.Open? && afterTwo.source.turn.tool == Some("reading")
      && afterAll.source.Open? && afterAll.source.turn.tool == None
      && afterAll.messages == c.messages + [Message(Ai, "answer")]
  {
    SearchReadAnswerShows();
    TurnAccumulates(c, SearchReadAnswer[..1]);
    TurnAccumulates(c, SearchReadAnswer[..2]);
    TurnAccumulates(c, SearchReadAnswer);
  }

  /** Selecting a thread whose history loads shows exactly that history, in
      order, and what the new stream then delivers lands after it, never before. */
  lemma HistoryThenLive(c: Client, id: string, name: Option<string>, h: seq<StoredMessage>, es: seq<Event>)
    requires Valid(c) && NoEnd(es)
    ensures var s := SelectThread(c, id, name, Some(h));
      var r := DeliverAll(s, c.streams, es);
      && r.active == Some(id) && r.source.Open? && r.source.threadId == id
      && r.messages == RenderAll(h) + (if NeedsBubble(es) then [Message(Ai, ChunkText(es))] else [])
  {
    var s := SelectThread(c, id, name, Some(h));
    TurnAccumulates(s, es);
  }

  /** A submitted message is displayed before anything its stream delivers: the
      human entry, then at most the one AI entry of the turn. */
  lemma SubmitThenLive(c: Client, freshId: string, es: seq<Event>)
    requires Valid(c) && Trim(c.draft) != "" && NoEnd(es)
    ensures var s := Submit(c, freshId, true);
      var r := DeliverAll(s, c.streams, es);
      && r.active == Some(TargetThread(c, freshId)) && r.source.Open?
      && r.source.threadId == TargetThread(c, freshId)
      && r.messages == c.messages + [Message(User, Trim(c.draft))]
                       + (if NeedsBubble(es) then [Message(Ai, ChunkText(es))] else [])
  {
    var s := Submit(c, freshId, true);
    TurnAccumulates(s, es);
  }

  /** A draft adopts the minted id on its first send, and the next send goes to
      the same thread without minting again. */
  lemma MintOnlyOnFirstSend(c: Client, id1: string, id2: string, next: string, posted1: bool, posted2: bool)
    requires Valid(c) && !HasActive(c) && id1 != "" && Trim(c.draft) != "" && Trim(next) != ""
    ensures var first := Submit(c, id1, posted1);
      && first.active == Some(id1)
      && Submit(first.(draft := next), id2, posted2).active == Some(id1)
  {
  }

  /** The new-chat button does not close an open stream: a chunk the old
      stream delivers before its turn had a bubble shows up in the draft. */
  lemma NewChatKeepsStreamOpen(c: Client, chunk: string)
    requires Valid(c) && c.source.Open? && c.source.turn.bubble.None? && chunk != ""
    ensures var r := Deliver(NewChat(c), c.source.serial, Event(Chunk, Some(chunk)));
      && r.active == None && r.sendDisabled == c.sendDisabled
      && r.messages == [Message(Ai, chunk)]
  {
  }

  /** When the turn already had a bubble, the new-chat button detaches it: the
      old stream's later chunks go to the off-screen node and the draft stays empty. */
  lemma NewChatDetachesBubble(c: Client, chunk: string)
    requires Valid(c) && c.source.Open? && c.source.turn.bubble.Some?
    ensures var r := Deliver(NewChat(c), c.source.serial, Event(Chunk, Some(chunk)));
      && r.active == None && r.sendDisabled == c.sendDisabled
      && r.messages == [] && r.source.Open? && r.source.turn.bubble == Some(Detached)
  {
  }

  /** From the initial page, whatever the user does and whatever arrives, Send
      is disabled exactly while a stream is open. */
  lemma SendLockTracksStream(inputs: seq<Input>)
    ensures Run(Initial, inputs).sendDisabled <==> Run(Initial, inputs).source.Open?
  {
  }
}
