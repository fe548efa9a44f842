/** What a strict client of each dialect demands of a stream, and that every completed response meets it:
    blocks are opened before they are filled and closed once, roles come first, ends come last. */
module ClientProtocol {
  import opened Wrappers
  import opened Frames
  import opened StreamGrammar
  import R = ResponsesAdapter
  import A = AnthropicSink
  import O = OpenAISink
  import D = Dialects

  /* ----- A strict Anthropic client ----- */

  /** Which content blocks are open, and whether they are tool blocks, and which were closed. */
  datatype AnthropicStage =
    | Waiting
    | Reading(open: map<int, bool>, closed: set<int>)
    | Ending
    | Over
    | Confused

  function Hear(c: AnthropicStage, e: A.Event): AnthropicStage {
    if c.Waiting? && e.EvMessageStart? then Reading(map[], {})
    else if c.Reading? then
      match e
      case EvTextStart(index) =>
        if index in c.open || index in c.closed then Confused else c.(open := c.open[index := false])
      case EvToolStart(index, _, _) =>
        if index in c.open || index in c.closed then Confused else c.(open := c.open[index := true])
      case EvTextDelta(index, text) => if index in c.open && !c.open[index] && text != "" then c else Confused
      case EvInputDelta(index, _) => if index in c.open && c.open[index] then c else Confused
      case EvBlockStop(index) => if index in c.open then Reading(c.open - {index}, c.closed + {index}) else Confused
      case EvMessageDelta(_, _) => if c.open == map[] then Ending else Confused
      case _ => Confused
    else if c.Ending? && e.EvMessageStop? then Over
    else Confused
  }

  function HearAll(c: AnthropicStage, es: seq<A.Event>): AnthropicStage
    decreases |es|
  {
    if es == [] then c else Hear(HearAll(c, es[..|es| - 1]), es[|es| - 1])
  }

  lemma HearMore(c: AnthropicStage, es: seq<A.Event>, e: A.Event)
    ensures HearAll(c, es + [e]) == Hear(HearAll(c, es), e)
  {
    assert (es + [e])[..|es + [e]| - 1] == es;
  }

  lemma HearTwoMore(c: AnthropicStage, es: seq<A.Event>, e: A.Event, f: A.Event)
    ensures HearAll(c, es + [e, f]) == Hear(Hear(HearAll(c, es), e), f)
  {
    HearMore(c, es, e);
    HearMore(c, es + [e], f);
    assert es + [e, f] == es + [e] + [f];
  }

  /** The blocks that a body of frames has opened: tool blocks from 1 on and the text block 0. */
  function OpenBlocks(o: Opened): map<int, bool> {
    map i | i in Blocks(o) :: i >= 1
  }

  /** The sink and its client in the middle of a message. */
  ghost predicate InStep(s: A.State, o: Opened) {
    && s.started == OpenBlocks(o).Keys
    && !s.closed && !s.errored
    && HearAll(Waiting, s.out) == Reading(OpenBlocks(o), {})
  }

  lemma OpenedAre(o: Opened)
    ensures forall i :: i in OpenBlocks(o) <==> (i == 0 && o.text) || 1 <= i <= o.tools
    ensures forall i :: i in OpenBlocks(o) ==> OpenBlocks(o)[i] == (i >= 1)
    ensures OpenBlocks(o.(tools := o.tools + 1)) == OpenBlocks(o)[o.tools + 1 := true]
    ensures OpenBlocks(o.(text := true)) == OpenBlocks(o)[0 := false]
  {
  }

  lemma ToolInStep(s: A.State, o: Opened, tool: Tool)
    requires InStep(s, o)
    ensures InStep(A.OnFrame(s, BlockStart(o.tools + 1, Some(tool))), o.(tools := o.tools + 1))
  {
    OpenedAre(o);
    HearMore(Waiting, s.out, A.EvToolStart(o.tools + 1, tool.id, tool.name));
    hide OpenBlocks, HearAll;
  }

  lemma TextInStep(s: A.State, o: Opened, text: string)
    requires InStep(s, o) && text != ""
    ensures InStep(A.OnFrame(s, BlockDelta(0, text, None)), o.(text := true))
  {
    OpenedAre(o);
    HearMore(Waiting, s.out, A.EvTextDelta(0, text));
    HearTwoMore(Waiting, s.out, A.EvTextStart(0), A.EvTextDelta(0, text));
    hide OpenBlocks, HearAll;
    if o.text {
      assert OpenBlocks(o)[0 := false] == OpenBlocks(o);
    }
  }

  lemma InputInStep(s: A.State, o: Opened, index: int, input: string)
    requires InStep(s, o) && 1 <= index <= o.tools
    ensures InStep(A.OnFrame(s, BlockDelta(index, "", Some(input))), o)
  {
    OpenedAre(o);
    HearMore(Waiting, s.out, A.EvInputDelta(index, input));
    hide OpenBlocks, HearAll;
  }

  lemma FrameInStep(s: A.State, o: Opened, f: Frame)
    requires InStep(s, o) && Extend(o, f).Some?
    ensures InStep(A.OnFrame(s, f), Extend(o, f).value)
  {
    hide InStep, A.OnFrame;
    match f
    case BlockStart(index, Some(tool)) => ToolInStep(s, o, tool);
    case BlockDelta(index, text, None) => TextInStep(s, o, text);
    case BlockDelta(index, text, Some(input)) => InputInStep(s, o, index, input);
  }

  lemma {:induction false} BodyInStep(s: A.State, mid: seq<Frame>)
    requires InStep(s, Opened(0, false)) && Parse(mid).Some?
    ensures InStep(A.OnFrames(s, mid), Parse(mid).value)
    decreases |mid|
  {
    hide InStep, A.OnFrame, Extend;
    if mid != [] {
      var n := |mid| - 1;
      BodyInStep(s, mid[..n]);
      FrameInStep(A.OnFrames(s, mid[..n]), Parse(mid[..n]).value, mid[n]);
      OneFrameMore(s, mid[..n], mid[n]);
      assert mid[..n] + [mid[n]] == mid;
    }
  }

  lemma OneFrameMore(s: A.State, fs: seq<Frame>, f: Frame)
    ensures A.OnFrames(s, fs + [f]) == A.OnFrame(A.OnFrames(s, fs), f)
  {
    AnthropicConcat(s, fs, [f]);
    assert A.OnFrames(A.OnFrames(s, fs), [f]) == A.OnFrames(A.OnFrame(A.OnFrames(s, fs), f), []);
  }

  /** The sink and its client after some of the blocks have been stopped. */
  ghost predicate PartlyStopped(s: A.State, blocks: seq<int>, open: map<int, bool>, k: nat) {
    && k <= |blocks|
    && (forall x :: x in blocks ==> x in s.started)
    && !s.closed && !s.errored
    && HearAll(Waiting, s.out) == Reading(open - Members(blocks[..k]), Members(blocks[..k]))
  }

  function Members(s: seq<int>): set<int> {
    set x | x in s
  }

  lemma OneStopMore(s: A.State, blocks: seq<int>, open: map<int, bool>, k: nat)
    requires k < |blocks| && PartlyStopped(s, blocks, open, k)
    requires (forall x :: x in blocks <==> x in open) && (forall i, j :: 0 <= i < j < |blocks| ==> blocks[i] < blocks[j])
    ensures PartlyStopped(A.OnFrame(s, BlockStop(blocks[k])), blocks, open, k + 1)
  {
    HearMore(Waiting, s.out, A.EvBlockStop(blocks[k]));
    var before, after := Members(blocks[..k]), Members(blocks[..k + 1]);
    assert blocks[..k + 1] == blocks[..k] + [blocks[k]];
    assert after == before + {blocks[k]};
    assert blocks[k] in blocks && blocks[k] !in blocks[..k];
    assert open - after == open - before - {blocks[k]};
  }

  lemma {:induction false} StopsInStep(s: A.State, blocks: seq<int>, open: map<int, bool>, k: nat)
    requires PartlyStopped(s, blocks, open, 0) && k <= |blocks|
    requires (forall x :: x in blocks <==> x in open) && (forall i, j :: 0 <= i < j < |blocks| ==> blocks[i] < blocks[j])
    ensures PartlyStopped(A.OnFrames(s, R.Stops(blocks)[..k]), blocks, open, k)
    decreases k
  {
    hide PartlyStopped, A.OnFrame;
    var fs := R.Stops(blocks);
    if k == 0 {
      assert fs[..0] == [];
    } else {
      StopsInStep(s, blocks, open, k - 1);
      OneStopMore(A.OnFrames(s, fs[..k - 1]), blocks, open, k - 1);
      OneFrameMore(s, fs[..k - 1], fs[k - 1]);
      assert fs[..k - 1] + [fs[k - 1]] == fs[..k];
    }
  }

  lemma StartInStep()
    ensures InStep(A.OnFrames(A.INITIAL, [MessageStart]), Opened(0, false))
  {
    HearMore(Waiting, [], A.EvMessageStart);
    assert [] + [A.EvMessageStart] == [A.EvMessageStart];
    assert A.OnFrames(A.INITIAL, [MessageStart]) == A.OnFrames(A.OnFrame(A.INITIAL, MessageStart), []);
    assert OpenBlocks(Opened(0, false)) == map[];
  }

  lemma EndHeard(s: A.State, reason: string, usage: R.Usage, closed: set<int>)
    requires !s.closed && !s.errored && HearAll(Waiting, s.out) == Reading(map[], closed)
    ensures HearAll(Waiting, A.Closed(A.OnFrames(s, [MessageStop(reason), Metadata(usage.inputTokens, usage.outputTokens)])).out) == Over
  {
    AnthropicEnd(s, reason, usage);
    HearTwoMore(Waiting, s.out, A.EvMessageDelta(A.StopReasonToAnthropic(reason), usage.outputTokens), A.EvMessageStop);
  }

  /** A strict Anthropic client reads every whole message to its end: the start first, every block opened
      before its first delta and closed once, none left open when the stop reason comes, and nothing
      behind the end. */
  lemma AnthropicClientIsContent(fs: seq<Frame>, mid: seq<Frame>, o: Opened, reason: string, usage: R.Usage)
    requires WholeMessage(fs, mid, o, reason, usage)
    ensures HearAll(Waiting, A.Closed(A.OnFrames(A.INITIAL, fs)).out) == Over
  {
    var blocks, tail := Blocks(o), [MessageStop(reason), Metadata(usage.inputTokens, usage.outputTokens)];
    var s0 := A.OnFrames(A.INITIAL, [MessageStart]);
    var s1 := A.OnFrames(s0, mid);
    var s2 := A.OnFrames(s1, R.Stops(blocks));
    StartInStep();
    BodyInStep(s0, mid);
    BodyEnds(s1, o);
    StopsInStep(s1, blocks, OpenBlocks(o), |blocks|);
    assert R.Stops(blocks)[..|blocks|] == R.Stops(blocks);
    AllStopped(s2, blocks, OpenBlocks(o));
    AnthropicConcat(A.INITIAL, [MessageStart], mid);
    AnthropicConcat(A.INITIAL, [MessageStart] + mid, R.Stops(blocks));
    AnthropicConcat(A.INITIAL, [MessageStart] + mid + R.Stops(blocks), tail);
    EndHeard(s2, reason, usage, Members(blocks));
    hide *;
  }

  lemma BodyEnds(s: A.State, o: Opened)
    requires InStep(s, o)
    ensures PartlyStopped(s, Blocks(o), OpenBlocks(o), 0)
    ensures forall x :: x in Blocks(o) <==> x in OpenBlocks(o)
  {
    assert Members([]) == {} && OpenBlocks(o) - {} == OpenBlocks(o);
    assert Blocks(o)[..0] == [];
  }

  lemma AllStopped(s: A.State, blocks: seq<int>, open: map<int, bool>)
    requires PartlyStopped(s, blocks, open, |blocks|) && forall x :: x in blocks <==> x in open
    ensures !s.closed && !s.errored && HearAll(Waiting, s.out) == Reading(map[], Members(blocks))
  {
    assert blocks[..|blocks|] == blocks;
    assert forall x :: x in open ==> x in Members(blocks);
    assert (open - Members(blocks)).Keys == {};
  }

  /* ----- A strict OpenAI client ----- */

  /** How many tool calls were announced, and how far the stream is. */
  datatype OpenAIStage = Silent | Speaking(calls: nat) | Finished(usage: bool) | Closed | Puzzled

  /** The role comes first and once, calls are numbered in order, arguments go to announced calls, one
      finish reason, at most one usage behind it, and the done marker last. */
  function Listen(c: OpenAIStage, chunk: O.Chunk): OpenAIStage {
    if c.Silent? && chunk.Role? then Speaking(0)
    else if c.Speaking? then
      match chunk
      case ToolCall(index, _, _) => if index == c.calls then Speaking(c.calls + 1) else Puzzled
      case ToolArguments(index, arguments) => if 0 <= index < c.calls && arguments != "" then c else Puzzled
      case Content(text) => if text != "" then c else Puzzled
      case FinishReason(_) => Finished(false)
      case _ => Puzzled
    else if c.Finished? && !c.usage && chunk.UsageTotals? then Finished(true)
    else if c.Finished? && chunk.DoneMarker? then Closed
    else Puzzled
  }

  function ListenAll(c: OpenAIStage, cs: seq<O.Chunk>): OpenAIStage
    decreases |cs|
  {
    if cs == [] then c else Listen(ListenAll(c, cs[..|cs| - 1]), cs[|cs| - 1])
  }

  lemma ListenMore(c: OpenAIStage, cs: seq<O.Chunk>, chunk: O.Chunk)
    ensures ListenAll(c, cs + [chunk]) == Listen(ListenAll(c, cs), chunk)
  {
    assert (cs + [chunk])[..|cs + [chunk]| - 1] == cs;
  }

  /** The sink and its client in the middle of a message: block i holds call i - 1. */
  ghost predicate InTune(s: O.State, o: Opened) {
    && s.roleSent && !s.finished && s.nextToolIndex == o.tools
    && (forall i :: 1 <= i <= o.tools ==> i in s.toolIndexByBlock && s.toolIndexByBlock[i] == i - 1)
    && ListenAll(Silent, s.out) == Speaking(o.tools)
  }

  lemma FrameInTune(s: O.State, o: Opened, f: Frame)
    requires InTune(s, o) && Extend(o, f).Some?
    ensures InTune(O.OnFrame(s, f), Extend(o, f).value)
  {
    match f
    case BlockStart(index, Some(tool)) => ListenMore(Silent, s.out, O.ToolCall(o.tools, tool.id, tool.name));
    case BlockDelta(index, text, None) => ListenMore(Silent, s.out, O.Content(text));
    case BlockDelta(index, text, Some(input)) => ListenMore(Silent, s.out, O.ToolArguments(index - 1, input));
    hide ListenAll;
  }

  lemma OneChunkMore(s: O.State, fs: seq<Frame>, f: Frame)
    ensures O.OnFrames(s, fs + [f]) == O.OnFrame(O.OnFrames(s, fs), f)
  {
    OpenAIConcat(s, fs, [f]);
    assert O.OnFrames(O.OnFrames(s, fs), [f]) == O.OnFrames(O.OnFrame(O.OnFrames(s, fs), f), []);
  }

  lemma {:induction false} BodyInTune(s: O.State, mid: seq<Frame>)
    requires InTune(s, Opened(0, false)) && Parse(mid).Some?
    ensures InTune(O.OnFrames(s, mid), Parse(mid).value)
    decreases |mid|
  {
    hide InTune, O.OnFrame, Extend;
    if mid != [] {
      var n := |mid| - 1;
      BodyInTune(s, mid[..n]);
      FrameInTune(O.OnFrames(s, mid[..n]), Parse(mid[..n]).value, mid[n]);
      OneChunkMore(s, mid[..n], mid[n]);
      assert mid[..n] + [mid[n]] == mid;
    }
  }

  lemma {:induction false} StopsAreSilent(s: O.State, fs: seq<Frame>)
    requires forall f :: f in fs ==> f.BlockStop?
    ensures O.OnFrames(s, fs) == s
    decreases |fs|
  {
    if fs != [] {
      assert fs[0] in fs;
      StopsAreSilent(s, fs[1..]);
    }
  }

  lemma StartInTune(includeUsage: bool)
    ensures InTune(O.OnFrames(O.Initial(includeUsage), [MessageStart]), Opened(0, false))
    ensures O.OnFrames(O.Initial(includeUsage), [MessageStart]).includeUsage == includeUsage
  {
    ListenMore(Silent, [], O.Role);
    assert [] + [O.Role] == [O.Role];
    var s := O.Initial(includeUsage);
    assert O.OnFrames(s, [MessageStart]) == O.OnFrames(O.OnFrame(s, MessageStart), []);
  }

  lemma EndListened(s: O.State, o: Opened, reason: string, usage: R.Usage)
    requires InTune(s, o)
    ensures ListenAll(Silent, O.Closed(O.OnFrames(s, [MessageStop(reason), Metadata(usage.inputTokens, usage.outputTokens)])).out)
            == Closed
  {
    OpenAIEnd(s, reason, usage);
    EndOf(s.out, o.tools, O.FinishReasonOf(reason), usage.inputTokens, usage.outputTokens,
          usage.inputTokens + usage.outputTokens, s.includeUsage);
    hide ListenAll, O.Closed, O.OnFrames, O.FinishReasonOf;
  }

  lemma EndOf(out: seq<O.Chunk>, n: nat, reason: string, prompt: int, completion: int, total: int, includeUsage: bool)
    requires ListenAll(Silent, out) == Speaking(n)
    ensures ListenAll(Silent, out + [O.FinishReason(reason)]
                              + (if includeUsage then [O.UsageTotals(prompt, completion, total)] else []) + [O.DoneMarker]) == Closed
  {
    var finished := out + [O.FinishReason(reason)];
    var totals := O.UsageTotals(prompt, completion, total);
    ListenMore(Silent, out, O.FinishReason(reason));
    if includeUsage {
      ListenMore(Silent, finished, totals);
      ListenMore(Silent, finished + [totals], O.DoneMarker);
    } else {
      ListenMore(Silent, finished, O.DoneMarker);
      assert finished + [] == finished;
    }
    hide ListenAll;
  }

  /** A strict OpenAI client reads every whole message to its end. */
  lemma OpenAIClientIsContent(includeUsage: bool, fs: seq<Frame>, mid: seq<Frame>, o: Opened, reason: string, usage: R.Usage)
    requires WholeMessage(fs, mid, o, reason, usage)
    ensures ListenAll(Silent, O.Closed(O.OnFrames(O.Initial(includeUsage), fs)).out) == Closed
  {
    var stops, tail := R.Stops(Blocks(o)), [MessageStop(reason), Metadata(usage.inputTokens, usage.outputTokens)];
    var begin := O.Initial(includeUsage);
    var s0 := O.OnFrames(begin, [MessageStart]);
    var s1 := O.OnFrames(s0, mid);
    StartInTune(includeUsage);
    BodyInTune(s0, mid);
    StopsAreSilent(s1, stops);
    OpenAIConcat(begin, [MessageStart], mid);
    OpenAIConcat(begin, [MessageStart] + mid, stops);
    OpenAIConcat(begin, [MessageStart] + mid + stops, tail);
    EndListened(s1, o, reason, usage);
    hide *;
  }

  /** Every response that completes without a failure, whatever its events, is read to its end by strict
      clients of both dialects. */
  lemma CompletedReachesClients(includeUsage: bool, body: seq<R.Event>, incomplete: bool, reason: Option<string>,
                                usage: Option<R.Usage>)
    requires (forall ev :: ev in body ==> InTheMiddle(ev)) && D.ArgumentsFollowCalls(body)
    ensures var fs := R.Run(R.INITIAL, body + [R.Completed(incomplete, reason, usage)]).1;
            && HearAll(Waiting, A.Closed(A.OnFrames(A.INITIAL, fs)).out) == Over
            && ListenAll(Silent, O.Closed(O.OnFrames(O.Initial(includeUsage), fs)).out) == Closed
  {
    hide *;
    var fs := R.Run(R.INITIAL, body + [R.Completed(incomplete, reason, usage)]).1;
    var said := ReasonFor(body, incomplete, reason);
    var used := if usage.Some? then usage.value else R.Usage(0, 0);
    var mid, o := CompletedIsWholeMessage(body, incomplete, reason, usage);
    AnthropicClientIsContent(fs, mid, o, said, used);
    OpenAIClientIsContent(includeUsage, fs, mid, o, said, used);
  }

  /* ----- Stop reasons and failures, in the clients' words ----- */

  /** Both dialects' words for every stop reason there is. */
  lemma ReasonsAreTranslated(reason: string)
    ensures var a := A.StopReasonToAnthropic(reason);
            && (a == "tool_use" <==> reason == "tool_use")
            && (a == "max_tokens" <==> reason == "max_tokens")
            && (a == "stop_sequence" <==> reason == "stop_sequence")
            && (a == "refusal" <==> reason == "content_filtered" || reason == "guardrail_intervened")
            && a in {"tool_use", "max_tokens", "stop_sequence", "refusal", "end_turn"}
    ensures var f := O.FinishReasonOf(reason);
            && (f == "tool_calls" <==> reason == "tool_use")
            && (f == "length" <==> reason == "max_tokens")
            && (f == "content_filter" <==> reason == "content_filtered" || reason == "guardrail_intervened")
            && f in {"tool_calls", "length", "content_filter", "stop"}
  {
  }

  /** Why a completed response stopped, as the client of each dialect is told at its end. */
  lemma CompletedSaysWhy(includeUsage: bool, body: seq<R.Event>, incomplete: bool, reason: Option<string>,
                         usage: Option<R.Usage>)
    requires (forall ev :: ev in body ==> InTheMiddle(ev)) && D.ArgumentsFollowCalls(body)
    ensures var fs := R.Run(R.INITIAL, body + [R.Completed(incomplete, reason, usage)]).1;
            var calls := exists i :: 0 <= i < |body| && body[i].ItemAdded? && body[i].isFunctionCall;
            var cutOff := incomplete && (reason.None? || R.Occurs("max", reason.value));
            var tokens := if usage.Some? then usage.value else R.Usage(0, 0);
            && EndsWith(A.Closed(A.OnFrames(A.INITIAL, fs)).out,
                        [A.EvMessageDelta(if calls then "tool_use" else if cutOff then "max_tokens" else "end_turn", tokens.outputTokens),
                         A.EvMessageStop])
            && EndsWith(O.Closed(O.OnFrames(O.Initial(includeUsage), fs)).out,
                        [O.FinishReason(if calls then "tool_calls" else if cutOff then "length" else "stop")]
                        + (if includeUsage
                           then [O.UsageTotals(tokens.inputTokens, tokens.outputTokens, tokens.inputTokens + tokens.outputTokens)]
                           else [])
                        + [O.DoneMarker])
  {
    ReasonIs(body, incomplete, reason);
    hide *;
    var fs := R.Run(R.INITIAL, body + [R.Completed(incomplete, reason, usage)]).1;
    var mid, o := CompletedIsWholeMessage(body, incomplete, reason, usage);
    WholeMessageSays(includeUsage, fs, mid, o, ReasonFor(body, incomplete, reason), if usage.Some? then usage.value else R.Usage(0, 0));
  }

  predicate EndsWith<T(==)>(all: seq<T>, tail: seq<T>) {
    |tail| <= |all| && all[|all| - |tail|..] == tail
  }

  lemma WholeMessageSays(includeUsage: bool, fs: seq<Frame>, mid: seq<Frame>, o: Opened, reason: string, usage: R.Usage)
    requires WholeMessage(fs, mid, o, reason, usage)
    ensures EndsWith(A.Closed(A.OnFrames(A.INITIAL, fs)).out,
                     [A.EvMessageDelta(A.StopReasonToAnthropic(reason), usage.outputTokens), A.EvMessageStop])
    ensures EndsWith(O.Closed(O.OnFrames(O.Initial(includeUsage), fs)).out,
                     [O.FinishReason(O.FinishReasonOf(reason))]
                     + (if includeUsage
                        then [O.UsageTotals(usage.inputTokens, usage.outputTokens, usage.inputTokens + usage.outputTokens)] else [])
                     + [O.DoneMarker])
  {
    WholeMessageEndsWith(includeUsage, fs, mid, o, reason, usage);
    hide *;
    var a := A.Closed(A.OnFrames(A.INITIAL, fs)).out;
    var said :| a == said + [A.EvMessageDelta(A.StopReasonToAnthropic(reason), usage.outputTokens), A.EvMessageStop];
    IsEnd(said, [A.EvMessageDelta(A.StopReasonToAnthropic(reason), usage.outputTokens), A.EvMessageStop]);
    var c := O.Closed(O.OnFrames(O.Initial(includeUsage), fs)).out;
    var totals := if includeUsage
                  then [O.UsageTotals(usage.inputTokens, usage.outputTokens, usage.inputTokens + usage.outputTokens)] else [];
    var sent :| c == sent + [O.FinishReason(O.FinishReasonOf(reason))] + totals + [O.DoneMarker];
    Together(sent, [O.FinishReason(O.FinishReasonOf(reason))], totals, [O.DoneMarker]);
    IsEnd(sent, [O.FinishReason(O.FinishReasonOf(reason))] + totals + [O.DoneMarker]);
  }

  lemma IsEnd<T>(said: seq<T>, tail: seq<T>)
    ensures EndsWith(said + tail, tail)
  {
  }

  lemma Together<T>(a: seq<T>, b: seq<T>, c: seq<T>, d: seq<T>)
    ensures a + b + c + d == a + (b + c + d)
  {
  }

  lemma ReasonIs(body: seq<R.Event>, incomplete: bool, reason: Option<string>)
    ensures var calls := exists i :: 0 <= i < |body| && body[i].ItemAdded? && body[i].isFunctionCall;
            var cutOff := incomplete && (reason.None? || R.Occurs("max", reason.value));
            var said := ReasonFor(body, incomplete, reason);
            && said == (if calls then "tool_use" else if cutOff then "max_tokens" else "end_turn")
            && A.StopReasonToAnthropic(said) == said
            && O.FinishReasonOf(said) == (if calls then "tool_calls" else if cutOff then "length" else "stop")
  {
    hide R.Occurs;
  }

  /* ----- Streams that end without a stop reason ----- */

  /** What an Anthropic client was told at an end is the default, with the usage given so far. */
  ghost predicate SaysDefault(s: A.State) {
    && s.stopReason.None?
    && forall e :: e in s.out && e.EvMessageDelta? ==> e.stopReason == "end_turn"
  }

  lemma FrameSaysDefault(s: A.State, f: Frame)
    requires SaysDefault(s) && !f.MessageStop?
    ensures SaysDefault(A.OnFrame(s, f))
    ensures A.OnFrame(s, f).outputTokens == if f.Metadata? then f.outputTokens else s.outputTokens
  {
  }

  lemma {:induction false} FramesSayDefault(s: A.State, fs: seq<Frame>)
    requires SaysDefault(s) && forall f :: f in fs ==> !f.MessageStop?
    ensures SaysDefault(A.OnFrames(s, fs))
    ensures (forall f :: f in fs ==> !f.Metadata?) ==>
              A.OnFrames(s, fs).outputTokens == s.outputTokens && A.OnFrames(s, fs).closed == s.closed
    decreases |fs|
  {
    hide SaysDefault;
    if fs != [] {
      assert fs[0] in fs;
      FrameSaysDefault(s, fs[0]);
      FramesSayDefault(A.OnFrame(s, fs[0]), fs[1..]);
    }
  }

  /** A stream that broke off before any stop reason ends for both clients as if the turn were over; the
      Anthropic client is told so with no tokens if no usage came and no error was reported. */
  lemma BrokenSaysDefault(includeUsage: bool, fs: seq<Frame>)
    requires forall f :: f in fs ==> !f.MessageStop?
    ensures var a := A.Closed(A.OnFrames(A.INITIAL, fs)).out;
            && (forall e :: e in a && e.EvMessageDelta? ==> e.stopReason == "end_turn")
            && ((forall f :: f in fs ==> !f.Metadata? && !f.ErrorFrame?) ==>
                  EndsWith(a, [A.EvMessageDelta("end_turn", 0), A.EvMessageStop]))
    ensures EndsWith(O.Closed(O.OnFrames(O.Initial(includeUsage), fs)).out, [O.FinishReason("stop"), O.DoneMarker])
  {
    FramesSayDefault(A.INITIAL, fs);
    A.OnFramesTerminates(A.INITIAL, fs);
    O.OnFramesFinishes(O.Initial(includeUsage), fs);
    NoStops(fs);
    hide A.OnFrames, O.OnFrames;
  }

  function ErrorsTold(es: seq<A.Event>): seq<string>
    decreases |es|
  {
    if es == [] then []
    else ErrorsTold(es[..|es| - 1]) + (if es[|es| - 1].EvError? then [es[|es| - 1].message] else [])
  }

  function FrameError(f: Frame): seq<string> {
    if f.ErrorFrame? then [if f.message == "" then "stream error" else f.message] else []
  }

  function FrameErrors(fs: seq<Frame>): seq<string>
    decreases |fs|
  {
    if fs == [] then [] else FrameError(fs[0]) + FrameErrors(fs[1..])
  }

  lemma ToldOneMore(es: seq<A.Event>, e: A.Event)
    ensures ErrorsTold(es + [e]) == ErrorsTold(es) + if e.EvError? then [e.message] else []
  {
    assert (es + [e])[..|es + [e]| - 1] == es;
  }

  lemma ToldTwoMore(es: seq<A.Event>, e: A.Event, f: A.Event)
    requires !e.EvError? && !f.EvError?
    ensures ErrorsTold(es + [e, f]) == ErrorsTold(es)
  {
    ToldOneMore(es, e);
    ToldOneMore(es + [e], f);
    assert es + [e, f] == es + [e] + [f];
  }

  lemma FrameTells(s: A.State, f: Frame)
    ensures ErrorsTold(A.OnFrame(s, f).out) == ErrorsTold(s.out) + FrameError(f)
  {
    hide ErrorsTold;
    assert ErrorsTold(s.out) + [] == ErrorsTold(s.out);
    match f
    case MessageStart => ToldOneMore(s.out, A.EvMessageStart);
    case BlockStart(index, Some(tool)) => ToldOneMore(s.out, A.EvToolStart(index, tool.id, tool.name));
    case BlockDelta(index, text, input) =>
      ToldOneMore(s.out, A.EvTextDelta(index, text));
      ToldTwoMore(s.out, A.EvTextStart(index), A.EvTextDelta(index, text));
      if input.Some? {
        ToldOneMore(s.out, A.EvInputDelta(index, input.value));
      }
    case BlockStop(index) => ToldOneMore(s.out, A.EvBlockStop(index));
    case Metadata(i, o) => FinishTellsNothing(s.(inputTokens := i, outputTokens := o));
    case ErrorFrame(message) => ToldOneMore(s.out, A.EvError(if message == "" then "stream error" else message));
    case _ =>
  }

  lemma FinishTellsNothing(s: A.State)
    ensures ErrorsTold(A.Finish(s).out) == ErrorsTold(s.out)
  {
    var reason := if s.stopReason.Some? then s.stopReason.value else "end_turn";
    ToldTwoMore(s.out, A.EvMessageDelta(reason, s.outputTokens), A.EvMessageStop);
  }

  lemma {:induction false} FramesTell(s: A.State, fs: seq<Frame>)
    ensures ErrorsTold(A.OnFrames(s, fs).out) == ErrorsTold(s.out) + FrameErrors(fs)
    decreases |fs|
  {
    hide A.OnFrame, ErrorsTold, FrameError;
    if fs == [] {
      assert ErrorsTold(s.out) + [] == ErrorsTold(s.out);
    } else {
      FrameTells(s, fs[0]);
      FramesTell(A.OnFrame(s, fs[0]), fs[1..]);
      InOneRow(ErrorsTold(s.out), FrameError(fs[0]), FrameErrors(fs[1..]));
    }
  }

  /** Every error of the frames is told to the Anthropic client, in order and in words, and no other. */
  lemma ErrorsAreTold(fs: seq<Frame>)
    ensures ErrorsTold(A.Closed(A.OnFrames(A.INITIAL, fs)).out) == FrameErrors(fs)
  {
    FramesTell(A.INITIAL, fs);
    FinishTellsNothing(A.OnFrames(A.INITIAL, fs));
    hide A.OnFrames, A.Finish;
  }

  /** The failures that a provider reports, each in its own words or as an interruption. */
  function Failures(events: seq<R.Event>): seq<string>
    decreases |events|
  {
    if events == [] then []
    else
      (if events[0].Failed? then [if events[0].message == "" then "stream interrupted" else events[0].message] else [])
      + Failures(events[1..])
  }

  lemma InOneRow(a: seq<string>, b: seq<string>, c: seq<string>)
    ensures a + (b + c) == a + b + c
  {
  }

  lemma {:induction false} FrameErrorsConcat(a: seq<Frame>, b: seq<Frame>)
    ensures FrameErrors(a + b) == FrameErrors(a) + FrameErrors(b)
    decreases |a|
  {
    hide FrameError;
    if a == [] {
      assert a + b == b;
    } else {
      FrameErrorsConcat(a[1..], b);
      assert (a + b)[1..] == a[1..] + b;
      InOneRow(FrameError(a[0]), FrameErrors(a[1..]), FrameErrors(b));
    }
  }

  lemma {:induction false} NoErrors(fs: seq<Frame>)
    requires forall f :: f in fs ==> !f.ErrorFrame?
    ensures FrameErrors(fs) == []
    decreases |fs|
  {
    if fs != [] {
      NoErrors(fs[1..]);
    }
  }

  lemma EventErrors(st: R.State, ev: R.Event)
    ensures FrameErrors(R.Step(st, ev).1) == if ev.Failed? then [if ev.message == "" then "stream interrupted" else ev.message] else []
  {
    var fs := R.Step(st, ev).1;
    if ev.Failed? {
      assert fs[1..] == [];
    } else {
      NoErrors(fs);
    }
  }

  lemma {:induction false} FailuresAreFramed(st: R.State, events: seq<R.Event>)
    ensures FrameErrors(R.Run(st, events).1) == Failures(events)
    decreases |events|
  {
    hide R.Step, FrameErrors;
    if events == [] {
      NoErrors([]);
    } else {
      var (s, fs) := R.Step(st, events[0]);
      EventErrors(st, events[0]);
      FailuresAreFramed(s, events[1..]);
      FrameErrorsConcat(fs, R.Run(s, events[1..]).1);
    }
  }

  /** Whatever the provider's events: the Anthropic client is told every failure, in order, and nothing
      else as an error. */
  lemma FailuresAreTold(events: seq<R.Event>)
    ensures ErrorsTold(A.Closed(A.OnFrames(A.INITIAL, R.Run(R.INITIAL, events).1)).out) == Failures(events)
  {
    ErrorsAreTold(R.Run(R.INITIAL, events).1);
    FailuresAreFramed(R.INITIAL, events);
    hide *;
  }
}
