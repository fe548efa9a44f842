/** What the clients of the two dialects put together again, and that it is the same thing. */
module Dialects {
  import opened Wrappers
  import opened Frames
  import A = AnthropicSink
  import O = OpenAISink
  import R = ResponsesAdapter

  datatype Call = Call(id: string, name: string, arguments: string)

  /** A message as its reader assembles it: the text, the tool calls in order of arrival, and the
      argument fragments that belong to no tool call. */
  datatype Message = Message(text: string, calls: seq<Call>, lost: seq<string>)

  const EMPTY := Message("", [], [])

  function AddText(m: Message, text: string): Message {
    m.(text := m.text + text)
  }

  function AddCall(m: Message, id: string, name: string): Message {
    m.(calls := m.calls + [Call(id, name, "")])
  }

  function AddArguments(m: Message, position: int, fragment: string): Message {
    if 0 <= position < |m.calls| then
      m.(calls := m.calls[position := m.calls[position].(arguments := m.calls[position].arguments + fragment)])
    else m.(lost := m.lost + [fragment])
  }

  /* ----- The three readers ----- */

  /** A client that files tool input by content block index. */
  datatype AnthropicClient = AnthropicClient(message: Message, slots: map<int, nat>)

  function Slot(slots: map<int, nat>, index: int): int {
    if index in slots then slots[index] else -1
  }

  function ReadEvent(c: AnthropicClient, e: A.Event): AnthropicClient {
    match e
    case EvToolStart(index, id, name) => AnthropicClient(AddCall(c.message, id, name), c.slots[index := |c.message.calls|])
    case EvTextDelta(_, text) => c.(message := AddText(c.message, text))
    case EvInputDelta(index, fragment) =>
      if fragment == "" then c else c.(message := AddArguments(c.message, Slot(c.slots, index), fragment))
    case _ => c
  }

  function ReadEvents(c: AnthropicClient, es: seq<A.Event>): AnthropicClient
    decreases |es|
  {
    if es == [] then c else ReadEvents(ReadEvent(c, es[0]), es[1..])
  }

  /** A client that files tool calls under the index it is given, which has to be the next one. */
  function ReadChunk(m: Message, c: O.Chunk): Message {
    match c
    case ToolCall(index, id, name) => if index == |m.calls| then AddCall(m, id, name) else m
    case ToolArguments(index, fragment) => AddArguments(m, index, fragment)
    case Content(text) => AddText(m, text)
    case _ => m
  }

  function ReadChunks(m: Message, cs: seq<O.Chunk>): Message
    decreases |cs|
  {
    if cs == [] then m else ReadChunks(ReadChunk(m, cs[0]), cs[1..])
  }

  /** The frames read directly, with no dialect in between. */
  datatype FrameReader = FrameReader(message: Message, slots: map<int, nat>)

  function ReadFrame(r: FrameReader, f: Frame): FrameReader {
    match f
    case BlockStart(index, Some(tool)) =>
      FrameReader(AddCall(r.message, tool.id, tool.name), r.slots[index := |r.message.calls|])
    case BlockDelta(index, text, input) =>
      if text != "" then r.(message := AddText(r.message, text))
      else if input.Some? && input.value != "" then
        r.(message := AddArguments(r.message, Slot(r.slots, index), input.value))
      else r
    case _ => r
  }

  function ReadFrames(r: FrameReader, fs: seq<Frame>): FrameReader
    decreases |fs|
  {
    if fs == [] then r else ReadFrames(ReadFrame(r, fs[0]), fs[1..])
  }

  /* ----- The two sinks say what the frames say ----- */

  function AnthropicReading(s: A.State): AnthropicClient {
    ReadEvents(AnthropicClient(EMPTY, map[]), s.out)
  }

  function OpenAIReading(s: O.State): Message {
    ReadChunks(EMPTY, s.out)
  }

  lemma {:induction false} ReadEventsConcat(c: AnthropicClient, es: seq<A.Event>, more: seq<A.Event>)
    ensures ReadEvents(c, es + more) == ReadEvents(ReadEvents(c, es), more)
    decreases |es|
  {
    if es == [] {
      assert es + more == more;
    } else {
      ReadEventsConcat(ReadEvent(c, es[0]), es[1..], more);
      assert (es + more)[1..] == es[1..] + more;
    }
  }

  lemma {:induction false} ReadChunksConcat(m: Message, cs: seq<O.Chunk>, more: seq<O.Chunk>)
    ensures ReadChunks(m, cs + more) == ReadChunks(ReadChunks(m, cs), more)
    decreases |cs|
  {
    if cs == [] {
      assert cs + more == more;
    } else {
      ReadChunksConcat(ReadChunk(m, cs[0]), cs[1..], more);
      assert (cs + more)[1..] == cs[1..] + more;
    }
  }

  ghost predicate AnthropicShows(s: A.State, r: FrameReader) {
    AnthropicReading(s) == AnthropicClient(r.message, r.slots)
  }

  /** The OpenAI sink drops orphaned argument fragments, so its client never sees them. */
  ghost predicate OpenAIShows(s: O.State, r: FrameReader) {
    && OpenAIReading(s) == r.message.(lost := [])
    && s.nextToolIndex == |r.message.calls|
    && s.toolIndexByBlock == r.slots
    && (forall i :: i in r.slots ==> r.slots[i] < |r.message.calls|)
  }

  lemma AnthropicWrites(s: A.State, e: A.Event)
    ensures AnthropicReading(A.Write(s, [e])) == ReadEvent(AnthropicReading(s), e)
  {
    ReadEventsConcat(AnthropicClient(EMPTY, map[]), s.out, [e]);
    assert ReadEvents(AnthropicReading(s), [e]) == ReadEvents(ReadEvent(AnthropicReading(s), e), []);
  }

  lemma AnthropicWritesTwo(s: A.State, e: A.Event, g: A.Event)
    ensures AnthropicReading(A.Write(s, [e, g])) == ReadEvent(ReadEvent(AnthropicReading(s), e), g)
  {
    AnthropicWrites(s, e);
    AnthropicWrites(A.Write(s, [e]), g);
    assert A.Write(s, [e, g]).out == A.Write(A.Write(s, [e]), [g]).out;
  }

  lemma AnthropicOnFrame(s: A.State, r: FrameReader, f: Frame)
    requires AnthropicShows(s, r)
    ensures AnthropicShows(A.OnFrame(s, f), ReadFrame(r, f))
  {
    match f
    case MessageStart => AnthropicWrites(s, A.EvMessageStart);
    case BlockStart(index, Some(tool)) => AnthropicWrites(s.(started := s.started + {index}), A.EvToolStart(index, tool.id, tool.name));
    case BlockDelta(index, text, input) =>
      if text != "" {
        AnthropicWrites(s, A.EvTextDelta(index, text));
        AnthropicWritesTwo(s.(started := s.started + {index}), A.EvTextStart(index), A.EvTextDelta(index, text));
      } else if input.Some? {
        AnthropicWrites(s, A.EvInputDelta(index, input.value));
      }
    case BlockStop(index) => AnthropicWrites(s, A.EvBlockStop(index));
    case Metadata(i, o) =>
      var reason := if s.stopReason.Some? then s.stopReason.value else "end_turn";
      AnthropicWritesTwo(s.(inputTokens := i, outputTokens := o, closed := true), A.EvMessageDelta(reason, o), A.EvMessageStop);
    case ErrorFrame(message) =>
      AnthropicWrites(s.(errored := true), A.EvError(if message == "" then "stream error" else message));
    case _ =>
  }

  lemma OpenAIWrites(m: Message, out: seq<O.Chunk>, c: O.Chunk)
    requires m == ReadChunks(EMPTY, out)
    ensures ReadChunks(EMPTY, out + [c]) == ReadChunk(m, c)
  {
    ReadChunksConcat(EMPTY, out, [c]);
    assert ReadChunks(m, [c]) == ReadChunks(ReadChunk(m, c), []);
  }

  lemma OpenAIWithRole(s: O.State, c: O.Chunk)
    ensures OpenAIReading(O.WithRole(s, c)) == ReadChunk(OpenAIReading(s), c)
  {
    OpenAIWrites(OpenAIReading(s), s.out, c);
    OpenAIWrites(OpenAIReading(s), s.out, O.Role);
    OpenAIWrites(OpenAIReading(s), s.out + [O.Role], c);
    assert s.out + [O.Role, c] == s.out + [O.Role] + [c];
  }

  lemma OpenAIOnFrame(s: O.State, r: FrameReader, f: Frame)
    requires OpenAIShows(s, r)
    ensures OpenAIShows(O.OnFrame(s, f), ReadFrame(r, f))
  {
    match f
    case MessageStart => OpenAIWrites(OpenAIReading(s), s.out, O.Role);
    case BlockStart(index, Some(tool)) =>
      OpenAIWithRole(s.(toolIndexByBlock := s.toolIndexByBlock[index := s.nextToolIndex], nextToolIndex := s.nextToolIndex + 1),
                     O.ToolCall(s.nextToolIndex, tool.id, tool.name));
    case BlockDelta(index, text, input) =>
      if text != "" {
        OpenAIWithRole(s, O.Content(text));
      } else if input.Some? && index in s.toolIndexByBlock {
        OpenAIWithRole(s, O.ToolArguments(s.toolIndexByBlock[index], input.value));
      }
    case MessageStop(reason) => OpenAIWrites(OpenAIReading(s), s.out, O.FinishReason(O.FinishReasonOf(reason)));
    case Metadata(i, o) =>
      OpenAIWrites(OpenAIReading(s), s.out, O.UsageTotals(i, o, i + o));
      assert s.out + [] == s.out;
    case _ =>
  }

  lemma {:induction false} SinksShow(a: A.State, o: O.State, r: FrameReader, fs: seq<Frame>)
    requires AnthropicShows(a, r) && OpenAIShows(o, r)
    ensures AnthropicShows(A.OnFrames(a, fs), ReadFrames(r, fs))
    ensures OpenAIShows(O.OnFrames(o, fs), ReadFrames(r, fs))
    decreases |fs|
  {
    if fs != [] {
      AnthropicOnFrame(a, r, fs[0]);
      OpenAIOnFrame(o, r, fs[0]);
      SinksShow(A.OnFrame(a, fs[0]), O.OnFrame(o, fs[0]), ReadFrame(r, fs[0]), fs[1..]);
    }
  }

  lemma ClosingSaysNothing(a: A.State, o: O.State)
    ensures AnthropicReading(A.Closed(a)) == AnthropicReading(a)
    ensures OpenAIReading(O.Closed(o)) == OpenAIReading(o)
  {
    var reason := if a.stopReason.Some? then a.stopReason.value else "end_turn";
    AnthropicWritesTwo(a.(closed := true), A.EvMessageDelta(reason, a.outputTokens), A.EvMessageStop);
    var m := OpenAIReading(o);
    OpenAIWrites(m, o.out, O.DoneMarker);
    OpenAIWrites(m, o.out, O.FinishReason("stop"));
    OpenAIWrites(m, o.out + [O.FinishReason("stop")], O.DoneMarker);
    assert o.out + [O.FinishReason("stop"), O.DoneMarker] == o.out + [O.FinishReason("stop")] + [O.DoneMarker];
  }

  const READER := FrameReader(EMPTY, map[])

  /** What a client has when a stream of frames has been sent and closed. */
  function AnthropicMessage(fs: seq<Frame>): Message {
    AnthropicReading(A.Closed(A.OnFrames(A.INITIAL, fs))).message
  }

  function OpenAIMessage(includeUsage: bool, fs: seq<Frame>): Message {
    OpenAIReading(O.Closed(O.OnFrames(O.Initial(includeUsage), fs)))
  }

  /** For every sequence of frames, from either provider, the two clients assemble the same text
      and the same tool calls in the same order with the same arguments, and these are what the
      frames say. */
  lemma SinksAgree(includeUsage: bool, fs: seq<Frame>)
    ensures var said := ReadFrames(READER, fs).message;
            && AnthropicMessage(fs) == said
            && OpenAIMessage(includeUsage, fs) == said.(lost := [])
  {
    SinksShow(A.INITIAL, O.Initial(includeUsage), READER, fs);
    ClosingSaysNothing(A.OnFrames(A.INITIAL, fs), O.OnFrames(O.Initial(includeUsage), fs));
  }

  /* ----- The Responses events read directly ----- */

  datatype Item = Item(itemId: string, call: Call, callId: string)

  /** The last tool item that answers to an identifier. */
  function LastNamed(items: seq<Item>, id: string): (position: int)
    ensures -1 <= position < |items|
    decreases |items|
  {
    if items == [] || id == "" then -1
    else
      var last := items[|items| - 1];
      if last.itemId == id || last.callId == id then |items| - 1 else LastNamed(items[..|items| - 1], id)
  }

  /** Whose arguments a fragment belongs to: the item it names, else the call it names, else the
      latest item; no item at all, and it is lost. */
  function Addressee(items: seq<Item>, itemId: string, callId: string): (position: int)
    ensures -1 <= position < |items|
  {
    if LastNamed(items, itemId) >= 0 then LastNamed(items, itemId)
    else if LastNamed(items, callId) >= 0 then LastNamed(items, callId)
    else |items| - 1
  }

  datatype Direct = Direct(text: string, items: seq<Item>, lost: seq<string>)

  function ReadResponse(d: Direct, ev: R.Event): Direct {
    match ev
    case TextDelta(text) => d.(text := d.text + text)
    case ItemAdded(true, itemId, callId, name) => d.(items := d.items + [Item(itemId, Call(callId, name, ""), callId)])
    case ArgsDelta(text, itemId, callId) =>
      if text == "" then d
      else
        var p := Addressee(d.items, itemId, callId);
        if p < 0 then d.(lost := d.lost + [text])
        else d.(items := d.items[p := d.items[p].(call := d.items[p].call.(arguments := d.items[p].call.arguments + text))])
    case _ => d
  }

  function ReadResponses(d: Direct, events: seq<R.Event>): Direct
    decreases |events|
  {
    if events == [] then d else ReadResponses(ReadResponse(d, events[0]), events[1..])
  }

  function Calls(items: seq<Item>): (calls: seq<Call>)
    ensures |calls| == |items| && forall i :: 0 <= i < |items| ==> calls[i] == items[i].call
  {
    seq(|items|, i requires 0 <= i < |items| => items[i].call)
  }

  /** How the adapter's tables and the frames' reader correspond to the events read directly. */
  ghost predicate Tracks(st: R.State, r: FrameReader, d: Direct) {
    var n := |d.items|;
    && r.message == Message(d.text, Calls(d.items), d.lost)
    && st.lastToolIdx == n
    && (if st.started then st.nextBlock == n + 1 else st.nextBlock == 0 && n == 0)
    && (forall i :: i in r.slots <==> 1 <= i <= n)
    && (forall i :: i in r.slots ==> r.slots[i] == i - 1)
    && (forall id :: id in st.toolBlocks <==> LastNamed(d.items, id) >= 0)
    && (forall id :: id in st.toolBlocks ==> st.toolBlocks[id] == LastNamed(d.items, id) + 1)
  }

  lemma LastNamedAfter(items: seq<Item>, item: Item, id: string)
    ensures LastNamed(items + [item], id)
            == if id != "" && (item.itemId == id || item.callId == id) then |items| else LastNamed(items, id)
  {
    assert (items + [item])[..|items|] == items;
  }

  lemma {:induction false} LastNamedSameNames(items: seq<Item>, other: seq<Item>, id: string)
    requires |items| == |other|
    requires forall i :: 0 <= i < |items| ==> items[i].itemId == other[i].itemId && items[i].callId == other[i].callId
    ensures LastNamed(items, id) == LastNamed(other, id)
    decreases |items|
  {
    if items != [] {
      LastNamedSameNames(items[..|items| - 1], other[..|other| - 1], id);
    }
  }

  lemma ReadNothing(r: FrameReader, fs: seq<Frame>)
    requires forall f :: f in fs ==> !f.BlockStart? && !f.BlockDelta?
    ensures ReadFrames(r, fs) == r
    decreases |fs|
  {
    if fs != [] {
      ReadNothing(r, fs[1..]);
    }
  }

  lemma {:induction false} ReadFramesConcat(r: FrameReader, fs: seq<Frame>, more: seq<Frame>)
    ensures ReadFrames(r, fs + more) == ReadFrames(ReadFrames(r, fs), more)
    decreases |fs|
  {
    if fs == [] {
      assert fs + more == more;
    } else {
      ReadFramesConcat(ReadFrame(r, fs[0]), fs[1..], more);
      assert (fs + more)[1..] == fs[1..] + more;
    }
  }

  lemma ReadAfterStart(r: FrameReader, st: R.State, f: Frame)
    ensures ReadFrames(r, R.EnsureStarted(st).1 + [f]) == ReadFrame(r, f)
  {
    ReadFramesConcat(r, R.EnsureStarted(st).1, [f]);
    ReadNothing(r, R.EnsureStarted(st).1);
    assert ReadFrames(r, [f]) == ReadFrames(ReadFrame(r, f), []);
  }

  lemma ItemTracks(st: R.State, r: FrameReader, d: Direct, itemId: string, callId: string, name: string)
    requires Tracks(st, r, d)
    ensures var (st', fs) := R.Step(st, R.ItemAdded(true, itemId, callId, name));
            Tracks(st', ReadFrames(r, fs), ReadResponse(d, R.ItemAdded(true, itemId, callId, name)))
  {
    hide LastNamed;
    var item := Item(itemId, Call(callId, name, ""), callId);
    var idx := |d.items| + 1;
    var (st', fs) := R.Step(st, R.ItemAdded(true, itemId, callId, name));
    ReadAfterStart(r, st, BlockStart(idx, Some(Tool(callId, name))));
    assert ReadFrames(r, fs) == ReadFrame(r, BlockStart(idx, Some(Tool(callId, name))));
    assert Calls(d.items + [item]) == Calls(d.items) + [item.call];
    forall id
      ensures LastNamed(d.items + [item], id)
              == if id != "" && (itemId == id || callId == id) then |d.items| else LastNamed(d.items, id)
    {
      LastNamedAfter(d.items, item, id);
    }
  }

  lemma LookupIsAddressee(st: R.State, r: FrameReader, d: Direct, itemId: string, callId: string)
    requires Tracks(st, r, d)
    ensures R.LookupTool(st, itemId, callId) == if d.items == [] then 1 else Addressee(d.items, itemId, callId) + 1
  {
    assert LastNamed(d.items, "") == -1;
  }

  lemma ArgsTracks(st: R.State, r: FrameReader, d: Direct, text: string, itemId: string, callId: string)
    requires Tracks(st, r, d) && text != ""
    ensures var (st', fs) := R.Step(st, R.ArgsDelta(text, itemId, callId));
            Tracks(st', ReadFrames(r, fs), ReadResponse(d, R.ArgsDelta(text, itemId, callId)))
  {
    var ev := R.ArgsDelta(text, itemId, callId);
    var f := BlockDelta(R.LookupTool(st, itemId, callId), "", Some(text));
    var d' := ReadResponse(d, ev);
    LookupIsAddressee(st, r, d, itemId, callId);
    assert R.Step(st, ev).1 == [f];
    assert ReadFrames(r, [f]) == ReadFrames(ReadFrame(r, f), []);
    assert ReadFrame(r, f).message == Message(d'.text, Calls(d'.items), d'.lost);
    forall id
      ensures LastNamed(d'.items, id) == LastNamed(d.items, id)
    {
      LastNamedSameNames(d'.items, d.items, id);
    }
  }

  lemma OtherTracks(st: R.State, r: FrameReader, d: Direct, ev: R.Event)
    requires Tracks(st, r, d) && !ev.ArgsDelta? && !(ev.ItemAdded? && ev.isFunctionCall)
    ensures var (st', fs) := R.Step(st, ev);
            Tracks(st', ReadFrames(r, fs), ReadResponse(d, ev))
  {
    var (st', fs) := R.Step(st, ev);
    if ev.TextDelta? {
      if ev.text == "" {
        assert d.text + "" == d.text;
      } else {
        ReadAfterStart(r, st, BlockDelta(0, ev.text, None));
      }
    } else {
      ReadNothing(r, fs);
    }
  }

  lemma {:induction false} EventsTrack(st: R.State, r: FrameReader, d: Direct, events: seq<R.Event>)
    requires Tracks(st, r, d)
    ensures var (st', fs) := R.Run(st, events);
            Tracks(st', ReadFrames(r, fs), ReadResponses(d, events))
    decreases |events|
  {
    if events != [] {
      var ev := events[0];
      var (s, fs) := R.Step(st, ev);
      OneEventTracks(st, r, d, ev);
      EventsTrack(s, ReadFrames(r, fs), ReadResponse(d, ev), events[1..]);
      ReadFramesConcat(r, fs, R.Run(s, events[1..]).1);
    }
  }

  lemma OneEventTracks(st: R.State, r: FrameReader, d: Direct, ev: R.Event)
    requires Tracks(st, r, d)
    ensures var (st', fs) := R.Step(st, ev);
            Tracks(st', ReadFrames(r, fs), ReadResponse(d, ev))
  {
    match ev
    case ItemAdded(true, itemId, callId, name) => ItemTracks(st, r, d, itemId, callId, name);
    case ArgsDelta(text, itemId, callId) =>
      if text != "" {
        ArgsTracks(st, r, d, text, itemId, callId);
      }
    case _ => OtherTracks(st, r, d, ev);
  }

  const NOTHING_READ := Direct("", [], [])

  /** For every sequence of Responses events, both clients end with the text, the tool calls in
      order of arrival and the argument strings that the events themselves spell out. */
  lemma DialectsAgree(includeUsage: bool, events: seq<R.Event>)
    ensures var fs := R.Run(R.INITIAL, events).1;
            var d := ReadResponses(NOTHING_READ, events);
            && AnthropicMessage(fs) == Message(d.text, Calls(d.items), d.lost)
            && OpenAIMessage(includeUsage, fs) == Message(d.text, Calls(d.items), [])
  {
    var fs := R.Run(R.INITIAL, events).1;
    assert Tracks(R.INITIAL, READER, NOTHING_READ);
    EventsTrack(R.INITIAL, READER, NOTHING_READ, events);
    SinksAgree(includeUsage, fs);
  }

  /** The text that the adapter remembers for its token estimate is the text of the events. */
  lemma {:induction false} StreamedIsText(st: R.State, d: Direct, events: seq<R.Event>)
    requires st.streamed == d.text
    ensures R.Run(st, events).0.streamed == ReadResponses(d, events).text
    decreases |events|
  {
    if events != [] {
      assert d.text + "" == d.text;
      StreamedIsText(R.Step(st, events[0]).0, ReadResponse(d, events[0]), events[1..]);
    }
  }

  /* ----- When nothing is lost ----- */

  /** Every argument fragment comes after some function call was announced. */
  predicate ArgumentsFollowCalls(events: seq<R.Event>) {
    forall i :: 0 <= i < |events| && events[i].ArgsDelta? && events[i].text != "" ==> CallBefore(events, i)
  }

  predicate CallBefore(events: seq<R.Event>, i: nat)
    requires i <= |events|
  {
    exists j :: 0 <= j < i && events[j].ItemAdded? && events[j].isFunctionCall
  }

  lemma {:induction false} ReadResponsesConcat(d: Direct, events: seq<R.Event>, more: seq<R.Event>)
    ensures ReadResponses(d, events + more) == ReadResponses(ReadResponses(d, events), more)
    decreases |events|
  {
    if events == [] {
      assert events + more == more;
    } else {
      ReadResponsesConcat(ReadResponse(d, events[0]), events[1..], more);
      assert (events + more)[1..] == events[1..] + more;
    }
  }

  /** The argument fragments that reach the Anthropic client without a tool call, and the OpenAI
      client not at all, are none exactly when every fragment follows a function call. */
  lemma {:induction false} NothingLostExactly(events: seq<R.Event>)
    ensures ReadResponses(NOTHING_READ, events).lost == [] <==> ArgumentsFollowCalls(events)
    ensures ReadResponses(NOTHING_READ, events).items == [] <==> !CallBefore(events, |events|)
    decreases |events|
  {
    if events != [] {
      var n := |events| - 1;
      var init, last := events[..n], events[n];
      NothingLostExactly(init);
      var d := ReadResponses(NOTHING_READ, init);
      ReadResponsesConcat(NOTHING_READ, init, [last]);
      assert init + [last] == events;
      assert ReadResponses(d, [last]) == ReadResponses(ReadResponse(d, last), []);
      CallsOfPrefix(events, n);
      assert CallBefore(events, |events|) <==> CallBefore(init, n) || (last.ItemAdded? && last.isFunctionCall);
      assert ArgumentsFollowCalls(events)
        <==> ArgumentsFollowCalls(init) && (last.ArgsDelta? && last.text != "" ==> CallBefore(init, n));
    }
  }

  /** A fragment that comes before its call is announced: the OpenAI client never sees it, the
      Anthropic client has no tool call to file it under, and the call ends without arguments. */
  lemma EarlyArgumentsAreLost(includeUsage: bool)
    ensures var events := [R.ArgsDelta("{}", "i", "c"), R.ItemAdded(true, "i", "c", "f")];
            var fs := R.Run(R.INITIAL, events).1;
            && !ArgumentsFollowCalls(events)
            && AnthropicMessage(fs) == Message("", [Call("c", "f", "")], ["{}"])
            && OpenAIMessage(includeUsage, fs) == Message("", [Call("c", "f", "")], [])
  {
    var args, added := R.ArgsDelta("{}", "i", "c"), R.ItemAdded(true, "i", "c", "f");
    var events := [args, added];
    DialectsAgree(includeUsage, events);
    assert events[1..] == [added] && [added][1..] == [];
    assert ReadResponse(NOTHING_READ, args) == Direct("", [], ["{}"]);
    assert ReadResponses(NOTHING_READ, events) == ReadResponses(Direct("", [], ["{}"]), [added]);
    var d := ReadResponse(Direct("", [], ["{}"]), added);
    assert ReadResponses(Direct("", [], ["{}"]), [added]) == ReadResponses(d, []);
    assert d.items == [Item("i", Call("c", "f", ""), "c")] && d.lost == ["{}"];
    assert Calls(d.items) == [Call("c", "f", "")];
    NothingLostExactly(events);
  }

  lemma CallsOfPrefix(events: seq<R.Event>, n: nat)
    requires n <= |events|
    ensures forall i :: 0 <= i <= n ==> (CallBefore(events[..n], i) <==> CallBefore(events, i))
  {
  }
}
