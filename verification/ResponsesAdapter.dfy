/** The adapter from decoded Responses events to Converse frames. */
module ResponsesAdapter {
  import opened Wrappers
  import opened Frames

  datatype Usage = Usage(inputTokens: int, outputTokens: int)

  /** An event after JSON decoding. */
  datatype Event =
    | TextDelta(text: string)
    | ItemAdded(isFunctionCall: bool, itemId: string, callId: string, name: string)
    | ArgsDelta(text: string, itemId: string, callId: string)
    | Completed(incomplete: bool, reason: Option<string>, usage: Option<Usage>)
    | Failed(message: string)
    | Ignored

  datatype State = State(
    started: bool,
    nextBlock: int,
    lastToolIdx: int,
    toolBlocks: map<string, int>,
    openBlocks: set<int>,
    stopReason: string,
    usage: Usage,
    streamed: string,
    failed: bool)

  const INITIAL := State(false, 0, 0, map[], {}, "", Usage(0, 0), "", false)

  predicate Contains(s: string, sub: string) {
    |sub| <= |s| && (s[..|sub|] == sub || (s != [] && Contains(s[1..], sub)))
  }

  /** The text occurs somewhere in the other one. */
  ghost predicate Occurs(sub: string, s: string) {
    exists before: string, after: string :: s == before + sub + after
  }

  lemma OccursLater(sub: string, c: char, rest: string)
    ensures Occurs(sub, rest) ==> Occurs(sub, [c] + rest)
    ensures Occurs(sub, [c] + rest) ==> sub <= [c] + rest || Occurs(sub, rest)
  {
    if before: string, after: string :| rest == before + sub + after {
      assert [c] + rest == ([c] + before) + sub + after;
    }
    if before: string, after: string :| [c] + rest == before + sub + after {
      if before == "" {
        assert "" + sub + after == sub + after;
      } else {
        assert rest == before[1..] + sub + after by {
          assert ([c] + rest)[1..] == rest && (before + sub + after)[1..] == before[1..] + sub + after;
        }
      }
    }
  }

  lemma OccursFirst(sub: string, s: string)
    ensures sub <= s ==> Occurs(sub, s)
    ensures Occurs(sub, "") ==> sub == ""
  {
    if sub <= s {
      assert s == "" + sub + s[|sub|..];
    }
  }

  lemma {:induction false} ContainsExactly(s: string, sub: string)
    ensures Contains(s, sub) <==> Occurs(sub, s)
    decreases |s|
  {
    hide Occurs;
    OccursFirst(sub, s);
    if s != "" {
      ContainsExactly(s[1..], sub);
      OccursLater(sub, s[0], s[1..]);
      assert s == [s[0]] + s[1..];
    }
  }

  /* ----- One event as a function: the next state and the frames it asks the sink to take ----- */

  function Remember(blocks: map<string, int>, id: string, idx: int): map<string, int> {
    if id == "" then blocks else blocks[id := idx]
  }

  function LookupTool(st: State, itemId: string, callId: string): int {
    if itemId != "" && itemId in st.toolBlocks then st.toolBlocks[itemId]
    else if callId != "" && callId in st.toolBlocks then st.toolBlocks[callId]
    else if st.lastToolIdx > 0 then st.lastToolIdx
    else 1
  }

  function EnsureStarted(st: State): (State, seq<Frame>) {
    if st.started then (st, []) else (st.(started := true, nextBlock := 1), [MessageStart])
  }

  function StopReasonOf(st: State, incomplete: bool, reason: Option<string>): string {
    if st.stopReason != "" then st.stopReason
    else if !incomplete then "end_turn"
    else if reason.Some? && !Contains(reason.value, "max") then "end_turn"
    else "max_tokens"
  }

  /** The elements of a set in ascending order. */
  function Ascending(s: set<int>): (r: seq<int>)
    ensures forall x :: x in r <==> x in s
    ensures forall i, j :: 0 <= i < j < |r| ==> r[i] < r[j]
  {
    if a :| a in s then
      LeastExists(s, a);
      var m :| m in s && Least(m, s);
      [m] + Ascending(s - {m})
    else []
  }

  predicate Least(m: int, s: set<int>) {
    forall x :: x in s ==> m <= x
  }

  lemma {:induction false} LeastExists(s: set<int>, a: int)
    requires a in s
    ensures exists m :: m in s && Least(m, s)
  {
    if b :| b in s && b < a {
      LeastExists(s - {a}, b);
      var m :| m in s - {a} && Least(m, s - {a});
      assert b in s - {a};
      assert s == (s - {a}) + {a};
      assert Least(m, s);
    } else {
      assert Least(a, s);
    }
  }

  function Stops(idxs: seq<int>): seq<Frame> {
    seq(|idxs|, i requires 0 <= i < |idxs| => BlockStop(idxs[i]))
  }

  /** The frames that end a message before its stop reason. */
  function Ended(st: State): seq<Frame> {
    EnsureStarted(st).1 + Stops(Ascending(st.openBlocks))
  }

  function Step(st: State, ev: Event): (State, seq<Frame>) {
    match ev
    case TextDelta(text) =>
      if text == "" then (st, [])
      else
        var (s, fs) := EnsureStarted(st);
        (s.(streamed := s.streamed + text, openBlocks := s.openBlocks + {0}), fs + [BlockDelta(0, text, None)])
    case ItemAdded(isCall, itemId, callId, name) =>
      if !isCall then (st, [])
      else
        var (s, fs) := EnsureStarted(st);
        var idx := if s.nextBlock == 0 then 1 else s.nextBlock;
        (s.(nextBlock := idx + 1,
            lastToolIdx := idx,
            toolBlocks := Remember(Remember(s.toolBlocks, itemId, idx), callId, idx),
            openBlocks := s.openBlocks + {idx},
            stopReason := "tool_use"),
         fs + [BlockStart(idx, Some(Tool(callId, name)))])
    case ArgsDelta(text, itemId, callId) =>
      if text == "" then (st, [])
      else
        var idx := LookupTool(st, itemId, callId);
        (st.(openBlocks := st.openBlocks + {idx}), [BlockDelta(idx, "", Some(text))])
    case Completed(incomplete, reason, usage) =>
      var reasonGiven := StopReasonOf(st, incomplete, reason);
      var totals := if usage.Some? then usage.value else st.usage;
      var s := st.(stopReason := reasonGiven, usage := totals);
      (EnsureStarted(s).0.(openBlocks := {}),
       Ended(s) + [MessageStop(reasonGiven), Metadata(totals.inputTokens, totals.outputTokens)])
    case Failed(message) =>
      (st.(failed := true), [ErrorFrame(if message == "" then "stream interrupted" else message)])
    case Ignored => (st, [])
  }

  /** The text remembered after an event, handled by a sink with so much room: a text that cannot
      even start the message is not remembered. */
  function StreamedAfter(st: State, ev: Event, room: nat): string {
    if ev.TextDelta? && |EnsureStarted(st).1| > room then st.streamed else Step(st, ev).0.streamed
  }

  function Run(st: State, events: seq<Event>): (State, seq<Frame>)
    decreases |events|
  {
    if events == [] then (st, [])
    else
      var (s, fs) := Step(st, events[0]);
      var (s', rest) := Run(s, events[1..]);
      (s', fs + rest)
  }

  /* ----- The adapter object ----- */

  class Adapter {
    const sink: TrackingSink
    var started: bool
    var nextBlock: int
    var lastToolIdx: int
    var toolBlocks: map<string, int>
    var openBlocks: set<int>
    var stopReason: string
    var usage: Usage
    var streamed: string
    var failed: bool

    function Current(): State
      reads this
    {
      State(started, nextBlock, lastToolIdx, toolBlocks, openBlocks, stopReason, usage, streamed, failed)
    }

    constructor (sink: TrackingSink)
      ensures this.sink == sink && Current() == INITIAL
    {
      this.sink := sink;
      started, nextBlock, lastToolIdx, toolBlocks, openBlocks := false, 0, 0, map[], {};
      stopReason, usage, streamed, failed := "", Usage(0, 0), "", false;
    }

    method EnsureStartedNow() returns (ok: bool)
      modifies this, sink
      ensures Current() == EnsureStarted(old(Current())).0
      ensures sink.Current() == Take(old(sink.Current()), EnsureStarted(old(Current())).1)
      ensures ok == (|EnsureStarted(old(Current())).1| <= old(sink.room))
    {
      if started {
        return true;
      }
      started := true;
      nextBlock := 1;
      ok := sink.HandleFrame(MessageStart);
    }

    method RememberTool(id: string, idx: int)
      modifies this`toolBlocks
      ensures toolBlocks == Remember(old(toolBlocks), id, idx)
    {
      if id == "" {
        return;
      }
      toolBlocks := toolBlocks[id := idx];
    }

    method CloseOpenBlocks() returns (ok: bool)
      modifies this`openBlocks, sink
      ensures sink.Current() == Take(old(sink.Current()), Stops(Ascending(old(openBlocks))))
      ensures ok == (|Stops(Ascending(old(openBlocks)))| <= old(sink.room))
      ensures ok ==> openBlocks == {}
    {
      hide Ascending;
      var idxs := Ascending(openBlocks);
      ghost var fs, before := Stops(idxs), sink.Current();
      var k := 0;
      while k < |idxs|
        invariant 0 <= k <= |idxs| && k <= before.room && openBlocks == old(openBlocks)
        invariant sink.Current() == Take(before, fs[..k])
      {
        assert fs[..k + 1] == fs[..k] + [BlockStop(idxs[k])];
        TakeTwice(before, fs[..k], [BlockStop(idxs[k])]);
        ok := sink.HandleFrame(BlockStop(idxs[k]));
        if !ok {
          assert fs == fs[..k + 1] + fs[k + 1..];
          TakeStops(before, fs[..k + 1], fs[k + 1..]);
          return;
        }
        k := k + 1;
      }
      assert fs[..k] == fs;
      openBlocks := {};
      ok := true;
    }

    /** One event changes the adapter and feeds the sink exactly as the step function says; when
        the sink runs out of room the call fails after the frames that fit. */
    method Handle(ev: Event) returns (ok: bool)
      modifies this, sink
      ensures sink.Current() == Take(old(sink.Current()), Step(old(Current()), ev).1)
      ensures ok == (|Step(old(Current()), ev).1| <= old(sink.room))
      ensures ok ==> Current() == Step(old(Current()), ev).0
      ensures failed == Step(old(Current()), ev).0.failed
      ensures streamed == StreamedAfter(old(Current()), ev, old(sink.room))
      ensures usage == Step(old(Current()), ev).0.usage
    {
      match ev
      case TextDelta(text) =>
        ok := HandleText(text);
      case ItemAdded(isCall, itemId, callId, name) =>
        ok := HandleItem(isCall, itemId, callId, name);
      case ArgsDelta(text, itemId, callId) =>
        if text == "" {
          return true;
        }
        var idx := LookupTool(Current(), itemId, callId);
        openBlocks := openBlocks + {idx};
        ok := sink.HandleFrame(BlockDelta(idx, "", Some(text)));
      case Completed(incomplete, reason, usageGiven) =>
        ok := HandleCompleted(incomplete, reason, usageGiven);
      case Failed(message) =>
        failed := true;
        ok := sink.HandleFrame(ErrorFrame(if message == "" then "stream interrupted" else message));
      case Ignored =>
        ok := true;
    }

    method HandleText(text: string) returns (ok: bool)
      modifies this, sink
      ensures var (next, fs) := Step(old(Current()), TextDelta(text));
              && sink.Current() == Take(old(sink.Current()), fs)
              && ok == (|fs| <= old(sink.room))
              && (ok ==> Current() == next)
              && failed == old(failed) && usage == old(usage)
              && streamed == StreamedAfter(old(Current()), TextDelta(text), old(sink.room))
    {
      if text == "" {
        return true;
      }
      ghost var start, before := EnsureStarted(Current()).1, sink.Current();
      ok := EnsureStartedNow();
      if !ok {
        TakeStops(before, start, [BlockDelta(0, text, None)]);
        return;
      }
      streamed := streamed + text;
      openBlocks := openBlocks + {0};
      TakeTwice(before, start, [BlockDelta(0, text, None)]);
      ok := sink.HandleFrame(BlockDelta(0, text, None));
    }

    method HandleItem(isCall: bool, itemId: string, callId: string, name: string) returns (ok: bool)
      modifies this, sink
      ensures var (next, fs) := Step(old(Current()), ItemAdded(isCall, itemId, callId, name));
              && sink.Current() == Take(old(sink.Current()), fs)
              && ok == (|fs| <= old(sink.room))
              && (ok ==> Current() == next)
              && failed == old(failed) && usage == old(usage) && streamed == old(streamed)
    {
      if !isCall {
        return true;
      }
      hide Take, Remember;
      ghost var before, begun := sink.Current(), EnsureStarted(Current());
      ghost var s0, start := begun.0, begun.1;
      ghost var opening := BlockStart(if s0.nextBlock == 0 then 1 else s0.nextBlock, Some(Tool(callId, name)));
      ok := EnsureStartedNow();
      if !ok {
        TakeStops(before, start, [opening]);
        return;
      }
      var idx := nextBlock;
      if idx == 0 {
        idx := 1;
        nextBlock := 2;
      } else {
        nextBlock := nextBlock + 1;
      }
      lastToolIdx := idx;
      RememberTool(itemId, idx);
      RememberTool(callId, idx);
      openBlocks := openBlocks + {idx};
      stopReason := "tool_use";
      TakeTwice(before, start, [opening]);
      ok := sink.HandleFrame(BlockStart(idx, Some(Tool(callId, name))));
    }

    method SettleStopReason(incomplete: bool, reason: Option<string>)
      modifies this`stopReason
      ensures stopReason == StopReasonOf(old(Current()), incomplete, reason)
    {
      if stopReason == "" {
        stopReason := "end_turn";
        if incomplete {
          stopReason := "max_tokens";
          if reason.Some? && !Contains(reason.value, "max") {
            stopReason := "end_turn";
          }
        }
      }
    }

    method HandleCompleted(incomplete: bool, reason: Option<string>, usageGiven: Option<Usage>) returns (ok: bool)
      modifies this, sink
      ensures var (next, fs) := Step(old(Current()), Completed(incomplete, reason, usageGiven));
              && sink.Current() == Take(old(sink.Current()), fs)
              && ok == (|fs| <= old(sink.room))
              && (ok ==> Current() == next)
              && failed == old(failed) && usage == next.usage && streamed == old(streamed)
    {
      hide Ascending, Stops, Ended;
      ghost var before := sink.Current();
      if usageGiven.Some? {
        usage := usageGiven.value;
      }
      SettleStopReason(incomplete, reason);
      ghost var ended := Ended(Current());
      ghost var closing := [MessageStop(stopReason), Metadata(usage.inputTokens, usage.outputTokens)];
      ok := EndBlocks();
      if !ok {
        TakeStops(before, ended, closing);
        return;
      }
      TakeTwice(before, ended, closing);
      ok := EmitClosing();
    }

    /** Opens the message if nothing was streamed, then closes every open block. */
    method EndBlocks() returns (ok: bool)
      modifies this, sink
      ensures sink.Current() == Take(old(sink.Current()), Ended(old(Current())))
      ensures ok == (|Ended(old(Current()))| <= old(sink.room))
      ensures ok ==> Current() == EnsureStarted(old(Current())).0.(openBlocks := {})
      ensures stopReason == old(stopReason) && usage == old(usage) && failed == old(failed) && streamed == old(streamed)
    {
      ghost var before, start, stops := sink.Current(), EnsureStarted(Current()).1, Stops(Ascending(openBlocks));
      ok := EnsureStartedNow();
      if !ok {
        TakeStops(before, start, stops);
        return;
      }
      TakeTwice(before, start, stops);
      ok := CloseOpenBlocks();
    }

    method EmitClosing() returns (ok: bool)
      modifies sink
      ensures var closing := [MessageStop(stopReason), Metadata(usage.inputTokens, usage.outputTokens)];
              sink.Current() == Take(old(sink.Current()), closing) && ok == (|closing| <= old(sink.room))
    {
      ghost var before := sink.Current();
      ok := sink.HandleFrame(MessageStop(stopReason));
      if !ok {
        TakeStops(before, [MessageStop(stopReason)], [Metadata(usage.inputTokens, usage.outputTokens)]);
        return;
      }
      TakeTwice(before, [MessageStop(stopReason)], [Metadata(usage.inputTokens, usage.outputTokens)]);
      ok := sink.HandleFrame(Metadata(usage.inputTokens, usage.outputTokens));
    }
  }
}
