/** The shape of the frame stream that the adapter makes of one completed response. */
module StreamGrammar {
  import opened Wrappers
  import opened Frames
  import opened ResponsesAdapter
  import A = AnthropicSink
  import O = OpenAISink
  import D = Dialects

  /** How many tool blocks have been started, and whether the text block has. */
  datatype Opened = Opened(tools: nat, text: bool)

  /** The frames allowed between the start of a message and its closing blocks: text for block 0,
      tool blocks numbered from 1 in order, tool input for a block already started. */
  function Extend(o: Opened, f: Frame): Option<Opened> {
    match f
    case BlockStart(index, Some(_)) => if index == o.tools + 1 then Some(o.(tools := o.tools + 1)) else None
    case BlockDelta(index, text, None) => if index == 0 && text != "" then Some(o.(text := true)) else None
    case BlockDelta(index, text, Some(input)) => if 1 <= index <= o.tools && text == "" && input != "" then Some(o) else None
    case _ => None
  }

  function Parse(fs: seq<Frame>): Option<Opened>
    decreases |fs|
  {
    if fs == [] then Some(Opened(0, false))
    else
      match Parse(fs[..|fs| - 1])
      case None => None
      case Some(o) => Extend(o, fs[|fs| - 1])
  }

  function UpTo(n: nat): (r: seq<int>)
    ensures |r| == n && forall i :: 0 <= i < n ==> r[i] == i + 1
    ensures forall x :: x in r <==> 1 <= x <= n
  {
    if n == 0 then [] else UpTo(n - 1) + [n]
  }

  /** The opened blocks in ascending order. */
  function Blocks(o: Opened): (r: seq<int>)
    ensures forall x :: x in r <==> (x == 0 && o.text) || 1 <= x <= o.tools
    ensures forall i, j :: 0 <= i < j < |r| ==> r[i] < r[j]
  {
    (if o.text then [0] else []) + UpTo(o.tools)
  }

  lemma {:induction false} AscendingIsUnique(a: seq<int>, b: seq<int>)
    requires forall i, j :: 0 <= i < j < |a| ==> a[i] < a[j]
    requires forall i, j :: 0 <= i < j < |b| ==> b[i] < b[j]
    requires forall x :: x in a <==> x in b
    ensures a == b
    decreases |a|
  {
    assert |a| > 0 ==> a[0] in a;
    assert |b| > 0 ==> b[0] in b;
    if a != [] && b != [] {
      var m, n := a[|a| - 1], b[|b| - 1];
      assert m in b && n in a;
      assert m == n;
      var a', b' := a[..|a| - 1], b[..|b| - 1];
      forall x
        ensures x in a' <==> x in b'
      {
        assert x in a <==> x in a' || x == m;
        assert x in b <==> x in b' || x == m;
      }
      AscendingIsUnique(a', b');
      assert a == a' + [m] && b == b' + [m];
    }
  }

  /** The adapter in the middle of a response: what it has sent so far, and its own bookkeeping. */
  ghost predicate Streaming(st: State, fs: seq<Frame>, o: Opened) {
    && (if st.started then
          fs != [] && fs[0] == MessageStart && Parse(fs[1..]) == Some(o) && st.nextBlock == o.tools + 1
        else fs == [] && o == Opened(0, false) && st.nextBlock == 0)
    && (forall x :: x in st.openBlocks <==> x in Blocks(o))
    && st.lastToolIdx == o.tools
    && st.stopReason == (if o.tools >= 1 then "tool_use" else "")
    && st.usage == Usage(0, 0)
    && (forall id :: id in st.toolBlocks ==> 1 <= st.toolBlocks[id] <= o.tools)
  }

  lemma ParseMore(fs: seq<Frame>, f: Frame)
    requires fs != []
    ensures (fs + [f])[0] == fs[0]
    ensures Parse((fs + [f])[1..]) == match Parse(fs[1..]) case None => None case Some(o) => Extend(o, f)
  {
    var more := (fs + [f])[1..];
    assert more[..|more| - 1] == fs[1..];
  }

  lemma TextStreams(st: State, fs: seq<Frame>, o: Opened, text: string)
    requires Streaming(st, fs, o) && text != ""
    ensures var (st', gs) := Step(st, TextDelta(text)); Streaming(st', fs + gs, o.(text := true))
  {
    var f := BlockDelta(0, text, None);
    if st.started {
      ParseMore(fs, f);
      assert fs + ([] + [f]) == fs + [f];
    } else {
      ParseMore([MessageStart], f);
      assert fs + ([MessageStart] + [f]) == [MessageStart] + [f];
    }
  }

  lemma ItemStreams(st: State, fs: seq<Frame>, o: Opened, itemId: string, callId: string, name: string)
    requires Streaming(st, fs, o)
    ensures var (st', gs) := Step(st, ItemAdded(true, itemId, callId, name));
            Streaming(st', fs + gs, o.(tools := o.tools + 1))
  {
    var f := BlockStart(o.tools + 1, Some(Tool(callId, name)));
    if st.started {
      ParseMore(fs, f);
      assert fs + ([] + [f]) == fs + [f];
    } else {
      ParseMore([MessageStart], f);
      assert fs + ([MessageStart] + [f]) == [MessageStart] + [f];
    }
  }

  lemma ArgsStream(st: State, fs: seq<Frame>, o: Opened, text: string, itemId: string, callId: string)
    requires Streaming(st, fs, o) && text != "" && o.tools >= 1
    ensures var (st', gs) := Step(st, ArgsDelta(text, itemId, callId)); Streaming(st', fs + gs, o)
  {
    ParseMore(fs, BlockDelta(LookupTool(st, itemId, callId), "", Some(text)));
  }

  lemma {:induction false} RunConcat(st: State, events: seq<Event>, more: seq<Event>)
    ensures Run(st, events + more)
            == (Run(Run(st, events).0, more).0, Run(st, events).1 + Run(Run(st, events).0, more).1)
    decreases |events|
  {
    hide Step;
    if events == [] {
      assert events + more == more;
      assert [] + Run(st, more).1 == Run(st, more).1;
    } else {
      var (s, fs) := Step(st, events[0]);
      RunConcat(s, events[1..], more);
      assert (events + more)[1..] == events[1..] + more;
      var rest, tail := Run(s, events[1..]).1, Run(Run(s, events[1..]).0, more).1;
      assert fs + (rest + tail) == (fs + rest) + tail;
    }
  }

  predicate InTheMiddle(ev: Event) {
    !ev.Completed? && !ev.Failed?
  }

  lemma {:induction false} BodyStreams(body: seq<Event>)
    requires forall ev :: ev in body ==> InTheMiddle(ev)
    requires D.ArgumentsFollowCalls(body)
    ensures var (st, fs) := Run(INITIAL, body);
            exists o :: Streaming(st, fs, o) && (o.tools >= 1 <==> D.CallBefore(body, |body|))
    decreases |body|
  {
    hide Step;
    if body == [] {
      assert Streaming(INITIAL, [], Opened(0, false));
    } else {
      var n := |body| - 1;
      var init, last := body[..n], body[n];
      D.CallsOfPrefix(body, n);
      BodyStreams(init);
      var (st, fs) := Run(INITIAL, init);
      var o :| Streaming(st, fs, o) && (o.tools >= 1 <==> D.CallBefore(init, n));
      RunConcat(INITIAL, init, [last]);
      assert init + [last] == body;
      var (st', gs) := Step(st, last);
      assert Run(st, [last]) == (st', gs + []);
      assert gs + [] == gs;
      var o' := LastStreams(st, fs, o, last);
      assert D.CallBefore(body, |body|) <==> D.CallBefore(init, n) || (last.ItemAdded? && last.isFunctionCall);
      assert Streaming(st', fs + gs, o');
    }
  }

  lemma LastStreams(st: State, fs: seq<Frame>, o: Opened, last: Event) returns (o': Opened)
    requires Streaming(st, fs, o) && InTheMiddle(last)
    requires last.ArgsDelta? && last.text != "" ==> o.tools >= 1
    ensures Streaming(Step(st, last).0, fs + Step(st, last).1, o')
    ensures o'.tools >= 1 <==> o.tools >= 1 || (last.ItemAdded? && last.isFunctionCall)
  {
    o' := o;
    assert fs + [] == fs;
    match last
    case TextDelta(text) =>
      if text != "" {
        TextStreams(st, fs, o, text);
        o' := o.(text := true);
      }
    case ItemAdded(true, itemId, callId, name) =>
      ItemStreams(st, fs, o, itemId, callId, name);
      o' := o.(tools := o.tools + 1);
    case ArgsDelta(text, itemId, callId) =>
      if text != "" {
        ArgsStream(st, fs, o, text, itemId, callId);
      }
    case _ =>
  }

  /** A whole response: one start, a body, one stop for each opened block in ascending order, the
      stop reason and the usage. */
  ghost predicate WholeMessage(fs: seq<Frame>, mid: seq<Frame>, o: Opened, reason: string, usage: Usage) {
    && Parse(mid) == Some(o)
    && fs == [MessageStart] + mid + Stops(Blocks(o)) + [MessageStop(reason), Metadata(usage.inputTokens, usage.outputTokens)]
  }

  /** Why a response stopped: to use tools if it called any, else what the provider says. */
  ghost function ReasonFor(body: seq<Event>, incomplete: bool, reason: Option<string>): string {
    if D.CallBefore(body, |body|) then "tool_use"
    else if !incomplete then "end_turn"
    else if reason.Some? && !Occurs("max", reason.value) then "end_turn"
    else "max_tokens"
  }

  /** A response that completes without a failure is sent as exactly one whole message, with its
      own stop reason and usage. */
  lemma CompletedIsWholeMessage(body: seq<Event>, incomplete: bool, reason: Option<string>, usage: Option<Usage>)
    returns (mid: seq<Frame>, o: Opened)
    requires forall ev :: ev in body ==> InTheMiddle(ev)
    requires D.ArgumentsFollowCalls(body)
    ensures WholeMessage(Run(INITIAL, body + [Completed(incomplete, reason, usage)]).1, mid, o,
                         ReasonFor(body, incomplete, reason), if usage.Some? then usage.value else Usage(0, 0))
  {
    var done := Completed(incomplete, reason, usage);
    BodyStreams(body);
    var (st, fs) := Run(INITIAL, body);
    o :| Streaming(st, fs, o) && (o.tools >= 1 <==> D.CallBefore(body, |body|));
    mid := if st.started then fs[1..] else [];
    RunConcat(INITIAL, body, [done]);
    var (st', gs) := Step(st, done);
    assert Run(st, [done]) == (st', gs + []);
    assert gs + [] == gs;
    AscendingIsUnique(Ascending(st.openBlocks), Blocks(o));
    if reason.Some? {
      ContainsExactly(reason.value, "max");
    }
    MessageOf(st, fs, mid, o, done);
  }

  lemma MessageOf(st: State, fs: seq<Frame>, mid: seq<Frame>, o: Opened, done: Event)
    requires Streaming(st, fs, o) && done.Completed? && Ascending(st.openBlocks) == Blocks(o)
    requires mid == if st.started then fs[1..] else []
    ensures var (st', gs) := Step(st, done); WholeMessage(fs + gs, mid, o, st'.stopReason, st'.usage)
  {
    var (st', gs) := Step(st, done);
    var tail := [MessageStop(st'.stopReason), Metadata(st'.usage.inputTokens, st'.usage.outputTokens)];
    assert gs == Ended(st) + tail;
    Pieces(st, fs, mid, Stops(Blocks(o)), tail);
  }

  lemma Pieces(st: State, fs: seq<Frame>, mid: seq<Frame>, stops: seq<Frame>, tail: seq<Frame>)
    requires if st.started then fs != [] && fs[0] == MessageStart && mid == fs[1..] else fs == [] && mid == []
    ensures fs + ((EnsureStarted(st).1 + stops) + tail) == [MessageStart] + mid + stops + tail
  {
  }

  /* ----- The dialects end such a message exactly once ----- */

  lemma {:induction false} StopsConcat(fs: seq<Frame>, gs: seq<Frame>)
    ensures O.Stops(fs + gs) == O.Stops(fs) + O.Stops(gs)
    decreases |fs|
  {
    if fs == [] {
      assert fs + gs == gs;
    } else {
      StopsConcat(fs[1..], gs);
      assert (fs + gs)[1..] == fs[1..] + gs;
    }
  }

  lemma {:induction false} NoStops(fs: seq<Frame>)
    requires forall f :: f in fs ==> !f.MessageStop?
    ensures O.Stops(fs) == 0
    decreases |fs|
  {
    if fs != [] {
      NoStops(fs[1..]);
    }
  }

  lemma {:induction false} ParsedFrames(mid: seq<Frame>)
    requires Parse(mid).Some?
    ensures forall f :: f in mid ==> f.BlockStart? || f.BlockDelta?
    decreases |mid|
  {
    if mid != [] {
      ParsedFrames(mid[..|mid| - 1]);
      assert mid == mid[..|mid| - 1] + [mid[|mid| - 1]];
    }
  }

  /** OpenAI clients get one finish chunk and one done marker, Anthropic clients one terminal
      pair. */
  lemma WholeMessageEndsOnce(includeUsage: bool, fs: seq<Frame>, mid: seq<Frame>, o: Opened, reason: string,
          usage: Usage)
    requires WholeMessage(fs, mid, o, reason, usage)
    ensures var out := O.Closed(O.OnFrames(O.Initial(includeUsage), fs)).out;
            O.Finishes(out) == 1 && out != [] && out[|out| - 1] == O.DoneMarker && O.DoneMarker !in out[..|out| - 1]
    ensures var out := A.Closed(A.OnFrames(A.INITIAL, fs)).out;
            A.Count(out, A.IsDelta) == 1 && A.Count(out, A.IsStop) == 1
  {
    var head := [MessageStart] + mid + Stops(Blocks(o));
    var stop, meta := MessageStop(reason), Metadata(usage.inputTokens, usage.outputTokens);
    ParsedFrames(mid);
    NoStops(head);
    StopsConcat(head, [stop, meta]);
    assert fs == head + [stop, meta];
    assert [stop, meta][1..] == [meta] && [meta][1..] == [];
    assert O.Stops([meta]) == O.Stops([]);
    assert O.Stops([stop, meta]) == 1 + O.Stops([meta]);
    O.OneDoneMarker(includeUsage, fs);
    A.OneTerminator(fs);
    assert meta in fs;
  }

  lemma {:induction false} AnthropicStaysOpen(s: A.State, fs: seq<Frame>)
    requires !s.closed && !s.errored && s.stopReason.None?
    requires forall f :: f in fs ==> f.MessageStart? || f.BlockStart? || f.BlockDelta? || f.BlockStop?
    ensures var s' := A.OnFrames(s, fs); !s'.closed && !s'.errored && s'.stopReason.None?
    decreases |fs|
  {
    if fs != [] {
      AnthropicStaysOpen(A.OnFrame(s, fs[0]), fs[1..]);
    }
  }

  lemma {:induction false} AnthropicConcat(s: A.State, fs: seq<Frame>, more: seq<Frame>)
    ensures A.OnFrames(s, fs + more) == A.OnFrames(A.OnFrames(s, fs), more)
    decreases |fs|
  {
    hide A.OnFrame;
    if fs == [] {
      assert fs + more == more;
    } else {
      AnthropicConcat(A.OnFrame(s, fs[0]), fs[1..], more);
      assert (fs + more)[1..] == fs[1..] + more;
    }
  }

  lemma {:induction false} OpenAIConcat(s: O.State, fs: seq<Frame>, more: seq<Frame>)
    ensures O.OnFrames(s, fs + more) == O.OnFrames(O.OnFrames(s, fs), more)
    decreases |fs|
  {
    hide O.OnFrame;
    if fs == [] {
      assert fs + more == more;
    } else {
      OpenAIConcat(O.OnFrame(s, fs[0]), fs[1..], more);
      assert (fs + more)[1..] == fs[1..] + more;
    }
  }

  lemma {:induction false} OpenAIKeepsChoice(s: O.State, fs: seq<Frame>)
    ensures O.OnFrames(s, fs).includeUsage == s.includeUsage
    decreases |fs|
  {
    if fs != [] {
      OpenAIKeepsChoice(O.OnFrame(s, fs[0]), fs[1..]);
    }
  }

  /** The last events of both dialects carry the message's stop reason, each in its own words, and
      its usage. */
  lemma WholeMessageEndsWith(includeUsage: bool, fs: seq<Frame>, mid: seq<Frame>, o: Opened, reason: string,
          usage: Usage)
    requires WholeMessage(fs, mid, o, reason, usage)
    ensures exists said :: A.Closed(A.OnFrames(A.INITIAL, fs)).out
              == said + [A.EvMessageDelta(A.StopReasonToAnthropic(reason), usage.outputTokens), A.EvMessageStop]
    ensures exists said :: O.Closed(O.OnFrames(O.Initial(includeUsage), fs)).out
              == said + [O.FinishReason(O.FinishReasonOf(reason))]
                 + (if includeUsage
                    then [O.UsageTotals(usage.inputTokens, usage.outputTokens, usage.inputTokens + usage.outputTokens)] else [])
                 + [O.DoneMarker]
  {
    var head := [MessageStart] + mid + Stops(Blocks(o));
    var stop, meta := MessageStop(reason), Metadata(usage.inputTokens, usage.outputTokens);
    ParsedFrames(mid);
    assert fs == head + [stop, meta];
    AnthropicStaysOpen(A.INITIAL, head);
    AnthropicConcat(A.INITIAL, head, [stop, meta]);
    AnthropicEnd(A.OnFrames(A.INITIAL, head), reason, usage);
    OpenAIConcat(O.Initial(includeUsage), head, [stop, meta]);
    OpenAIKeepsChoice(O.Initial(includeUsage), head);
    OpenAIEnd(O.OnFrames(O.Initial(includeUsage), head), reason, usage);
  }

  lemma AnthropicEnd(s: A.State, reason: string, usage: Usage)
    requires !s.closed && !s.errored
    ensures A.Closed(A.OnFrames(s, [MessageStop(reason), Metadata(usage.inputTokens, usage.outputTokens)])).out
            == s.out + [A.EvMessageDelta(A.StopReasonToAnthropic(reason), usage.outputTokens), A.EvMessageStop]
  {
    var stop, meta := MessageStop(reason), Metadata(usage.inputTokens, usage.outputTokens);
    assert [stop, meta][1..] == [meta] && [meta][1..] == [];
    assert A.OnFrames(s, [stop, meta]) == A.OnFrames(A.OnFrame(s, stop), [meta]);
    assert A.OnFrames(A.OnFrame(s, stop), [meta]) == A.OnFrames(A.OnFrame(A.OnFrame(s, stop), meta), []);
  }

  lemma OpenAIEnd(s: O.State, reason: string, usage: Usage)
    ensures O.Closed(O.OnFrames(s, [MessageStop(reason), Metadata(usage.inputTokens, usage.outputTokens)])).out
            == s.out + [O.FinishReason(O.FinishReasonOf(reason))]
               + (if s.includeUsage
                  then [O.UsageTotals(usage.inputTokens, usage.outputTokens, usage.inputTokens + usage.outputTokens)] else [])
               + [O.DoneMarker]
  {
    var stop, meta := MessageStop(reason), Metadata(usage.inputTokens, usage.outputTokens);
    assert [stop, meta][1..] == [meta] && [meta][1..] == [];
    assert O.OnFrames(s, [stop, meta]) == O.OnFrames(O.OnFrame(s, stop), [meta]);
    assert O.OnFrames(O.OnFrame(s, stop), [meta]) == O.OnFrames(O.OnFrame(O.OnFrame(s, stop), meta), []);
  }
}
