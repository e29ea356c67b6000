/** The server-push channel's event taxonomy and the classification `openStream`
    wires into the `EventSource` listeners. */
module Events {
  import opened Wrappers
  import opened Text

  /** The four channels the client listens on: the unnamed default `message`
      channel (`onmessage`) and the named `chunk`, `system` and `tool_call` events. */
  datatype Channel = Default | Chunk | System | ToolCall

  /** One delivered event; `data` is `None` when the event carries no payload. */
  datatype Event = Event(channel: Channel, data: Option<string>)

  /** What a listener does with an event. */
  datatype Action =
    | AppendChunk(text: string)   // onChunk(ev.data)
    | EndTurn                     // onEnd(), then closeStream()
    | ShowTool(text: string)      // onToolCall(ev.data || "")
    | Ignore                      // the listener's guard rejects the event

  /** `ev.data || ""`. */
  function Payload(data: Option<string>): string
  {
    data.GetOr("")
  }

  /** The `system` listener's test: the trimmed payload is exactly `end`. */
  predicate IsEndSignal(data: Option<string>)
  {
    Trim(Payload(data)) == "end"
  }

  /** The classification each listener applies to its channel. */
  function Classify(e: Event): (a: Action)
    ensures a.AppendChunk? <==> (e.channel == Default || e.channel == Chunk) && e.data.Some? && e.data.value != ""
    ensures a.AppendChunk? ==> a.text == e.data.value && a.text != ""
    ensures a.EndTurn? <==> e.channel == System && IsEndSignal(e.data)
    ensures a.ShowTool? <==> e.channel == ToolCall
    ensures a.ShowTool? ==> a.text == Payload(e.data)
  {
    match e.channel
    case Default | Chunk =>
      if e.data.Some? && |e.data.value| > 0 then AppendChunk(e.data.value) else Ignore
    case System =>
      if IsEndSignal(e.data) then EndTurn else Ignore
    case ToolCall =>
      ShowTool(Payload(e.data))
  }

  /** The default channel and the `chunk` channel are interchangeable: the same
      payload is classified the same way on either. */
  lemma ChunkChannelsAgree(data: Option<string>)
    ensures Classify(Event(Default, data)) == Classify(Event(Chunk, data))
    ensures Classify(Event(Default, data)).AppendChunk? || Classify(Event(Default, data)) == Ignore
  {
  }

  /** `p` is the word `end` at offset `i` with only white space around it. */
  ghost predicate PaddedEnd(p: string, i: nat)
  {
    i + 3 <= |p| && p[i..i + 3] == "end" && AllSpace(p[..i]) && AllSpace(p[i + 3..])
  }

  /** The `system` listener ignores every payload that is not an end signal. */
  lemma SystemIgnoresNonEnd(data: Option<string>)
    requires !IsEndSignal(data)
    ensures Classify(Event(System, data)) == Ignore
  {
  }

  /** A `system` payload is an end signal exactly when it is `end` surrounded by
      white space only. */
  lemma EndSignalShape(data: Option<string>)
    ensures IsEndSignal(data) <==> exists i :: PaddedEnd(Payload(data), i)
  {
    var p := Payload(data);
    if IsEndSignal(data) {
      EndSignalIsPadded(p);
    }
    if i: nat :| PaddedEnd(p, i) {
      PaddedIsEndSignal(p, i);
    }
  }

  lemma EndSignalIsPadded(p: string)
    requires Trim(p) == "end"
    ensures exists i :: PaddedEnd(p, i)
  {
    var i, j :| 0 <= i <= j <= |p| && Trim(p) == p[i..j] && AllSpace(p[..i]) && AllSpace(p[j..]);
    assert j == i + 3;
    assert PaddedEnd(p, i);
  }

  lemma PaddedIsEndSignal(p: string, i: nat)
    requires PaddedEnd(p, i)
    ensures Trim(p) == "end"
  {
    var w := p[i..i + 3];
    assert p[i] == w[0] == 'e';
    assert p[i + 2] == w[2] == 'd';
    TrimUnique(p, i, i + 3);
  }

  /** White space around `end` does not matter. */
  lemma PaddedEndIsEndSignal()
    ensures IsEndSignal(Some(" end\n"))
  {
    var padded := " end\n";
    assert padded[..1] == [' '] && padded[4..] == ['\n'] && padded[1..4] == "end";
    TrimUnique(padded, 1, 4);
  }

  /** Case and the whole word matter: `End`, `ending` and `ping` are not end
      signals, and neither is an absent payload. */
  lemma OtherPayloadsAreNotEndSignals()
    ensures !IsEndSignal(Some("End")) && !IsEndSignal(Some("ending")) && !IsEndSignal(Some("ping"))
    ensures !IsEndSignal(None)
  {
    NotSpaceTrimsToItself("End");
    NotSpaceTrimsToItself("ending");
    NotSpaceTrimsToItself("ping");
    TrimUnique("", 0, 0);
  }

  lemma NotSpaceTrimsToItself(s: string)
    requires |s| > 0 && !IsSpace(s[0]) && !IsSpace(s[|s| - 1])
    ensures Trim(s) == s
  {
    assert s[..0] == [] && s[|s|..] == [] && s[0..|s|] == s;
    TrimUnique(s, 0, |s|);
  }
}
