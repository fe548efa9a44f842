/** The sink that speaks Anthropic's Messages streaming dialect. */
module AnthropicSink {
  import opened Wrappers
  import opened Frames

  datatype Event =
    | EvMessageStart
    | EvTextStart(index: int)
    | EvToolStart(index: int, id: string, name: string)
    | EvTextDelta(index: int, text: string)
    | EvInputDelta(index: int, partialJson: string)
    | EvBlockStop(index: int)
    | EvMessageDelta(stopReason: string, outputTokens: int)
    | EvMessageStop
    | EvError(message: string)

  datatype State = State(
    out: seq<Event>,
    started: set<int>,
    stopReason: Option<string>,
    inputTokens: int,
    outputTokens: int,
    closed: bool,
    errored: bool)

  const INITIAL := State([], {}, None, 0, 0, false, false)

  function StopReasonToAnthropic(reason: string): string {
    if reason == "tool_use" || reason == "max_tokens" || reason == "stop_sequence" then reason
    else if reason == "content_filtered" || reason == "guardrail_intervened" then "refusal"
    else "end_turn"
  }

  /* ----- One frame as a function ----- */

  function Write(s: State, es: seq<Event>): State {
    s.(out := s.out + es)
  }

  function Finish(s: State): State {
    if s.closed then s
    else
      var reason := if s.stopReason.Some? then s.stopReason.value else "end_turn";
      Write(s.(closed := true), [EvMessageDelta(reason, s.outputTokens), EvMessageStop])
  }

  function OnDelta(s: State, index: int, text: string, input: Option<string>): State {
    if text != "" then
      if index in s.started then Write(s, [EvTextDelta(index, text)])
      else Write(s.(started := s.started + {index}), [EvTextStart(index), EvTextDelta(index, text)])
    else if input.Some? then Write(s, [EvInputDelta(index, input.value)])
    else s
  }

  function OnFrame(s: State, f: Frame): State {
    match f
    case MessageStart => Write(s, [EvMessageStart])
    case BlockStart(index, tool) =>
      if tool.None? then s
      else Write(s.(started := s.started + {index}), [EvToolStart(index, tool.value.id, tool.value.name)])
    case BlockDelta(index, text, input) => OnDelta(s, index, text, input)
    case BlockStop(index) => if index in s.started then Write(s, [EvBlockStop(index)]) else s
    case MessageStop(reason) => s.(stopReason := Some(StopReasonToAnthropic(reason)))
    case Metadata(i, o) => Finish(s.(inputTokens := i, outputTokens := o))
    case ErrorFrame(message) =>
      Write(s.(errored := true), [EvError(if message == "" then "stream error" else message)])
    case OtherFrame => s
  }

  function Closed(s: State): State {
    if !s.closed && !s.errored then Finish(s) else s
  }

  function OnFrames(s: State, fs: seq<Frame>): State
    decreases |fs|
  {
    if fs == [] then s else OnFrames(OnFrame(s, fs[0]), fs[1..])
  }

  /* ----- The sink object ----- */

  class StreamSink {
    var out: seq<Event>
    var started: set<int>
    var stopReason: string
    var haveStopReason: bool
    var inputTokens: int
    var outputTokens: int
    var closed: bool
    var errored: bool

    function Current(): State
      reads this
    {
      State(out, started, if haveStopReason then Some(stopReason) else None, inputTokens, outputTokens, closed, errored)
    }

    constructor ()
      ensures Current() == INITIAL
    {
      out, started, stopReason, haveStopReason := [], {}, "", false;
      inputTokens, outputTokens, closed, errored := 0, 0, false, false;
    }

    method WriteRaw(e: Event)
      modifies this`out
      ensures out == old(out) + [e]
    {
      out := out + [e];
    }

    method HandleFrame(f: Frame)
      modifies this
      ensures Current() == OnFrame(old(Current()), f)
    {
      match f
      case MessageStart => WriteRaw(EvMessageStart);
      case BlockStart(index, tool) =>
        if tool.None? {
          return;
        }
        started := started + {index};
        WriteRaw(EvToolStart(index, tool.value.id, tool.value.name));
      case BlockDelta(index, text, input) =>
        if text != "" {
          if index !in started {
            started := started + {index};
            WriteRaw(EvTextStart(index));
          }
          WriteRaw(EvTextDelta(index, text));
          return;
        }
        if input.Some? {
          WriteRaw(EvInputDelta(index, input.value));
        }
      case BlockStop(index) =>
        if index !in started {
          return;
        }
        WriteRaw(EvBlockStop(index));
      case MessageStop(reason) =>
        stopReason := StopReasonToAnthropic(reason);
        haveStopReason := true;
      case Metadata(i, o) =>
        inputTokens := i;
        outputTokens := o;
        FinishNow();
      case ErrorFrame(message) =>
        errored := true;
        WriteRaw(EvError(if message == "" then "stream error" else message));
      case OtherFrame =>
    }

    method FinishNow()
      modifies this
      ensures Current() == Finish(old(Current()))
    {
      if closed {
        return;
      }
      closed := true;
      var reason := if haveStopReason then stopReason else "end_turn";
      WriteRaw(EvMessageDelta(reason, outputTokens));
      WriteRaw(EvMessageStop);
    }

    method Close()
      modifies this
      ensures Current() == Closed(old(Current()))
    {
      if !closed && !errored {
        FinishNow();
      }
    }
  }

  /* ----- The terminator ----- */

  function Count(es: seq<Event>, p: Event -> bool): nat {
    if es == [] then 0 else Count(es[..|es| - 1], p) + (if p(es[|es| - 1]) then 1 else 0)
  }

  const IsDelta: Event -> bool := (e: Event) => e.EvMessageDelta?

  const IsStop: Event -> bool := (e: Event) => e.EvMessageStop?

  lemma CountAppend(es: seq<Event>, e: Event, p: Event -> bool)
    ensures Count(es + [e], p) == Count(es, p) + (if p(e) then 1 else 0)
  {
    assert (es + [e])[..|es|] == es;
  }

  /** The terminal pair is written once a stream is closed, and not before. */
  ghost predicate TerminatedWhenClosed(s: State) {
    Count(s.out, IsDelta) == Count(s.out, IsStop) == if s.closed then 1 else 0
  }

  lemma OnFrameTerminates(s: State, f: Frame)
    requires TerminatedWhenClosed(s)
    ensures TerminatedWhenClosed(OnFrame(s, f))
    ensures OnFrame(s, f).closed == (s.closed || f.Metadata?)
    ensures OnFrame(s, f).errored == (s.errored || f.ErrorFrame?)
  {
    match f
    case MessageStart => WriteOthers(s.out, [EvMessageStart]);
    case BlockStart(index, Some(tool)) => WriteOthers(s.out, [EvToolStart(index, tool.id, tool.name)]);
    case BlockDelta(index, text, input) => OnDeltaTerminates(s, index, text, input);
    case BlockStop(index) => WriteOthers(s.out, [EvBlockStop(index)]);
    case Metadata(i, o) => FinishTerminates(s.(inputTokens := i, outputTokens := o));
    case ErrorFrame(message) => WriteOthers(s.out, [EvError(if message == "" then "stream error" else message)]);
    case _ =>
  }

  lemma OnDeltaTerminates(s: State, index: int, text: string, input: Option<string>)
    requires TerminatedWhenClosed(s)
    ensures var s' := OnDelta(s, index, text, input);
            TerminatedWhenClosed(s') && s'.closed == s.closed && s'.errored == s.errored
  {
    WriteOthers(s.out, [EvTextDelta(index, text)]);
    WriteOthers(s.out, [EvTextStart(index), EvTextDelta(index, text)]);
    if input.Some? {
      WriteOthers(s.out, [EvInputDelta(index, input.value)]);
    }
  }

  lemma WriteOthers(out: seq<Event>, added: seq<Event>)
    requires |added| <= 2 && forall e :: e in added ==> !e.EvMessageDelta? && !e.EvMessageStop?
    ensures Count(out + added, IsDelta) == Count(out, IsDelta)
    ensures Count(out + added, IsStop) == Count(out, IsStop)
  {
    if |added| == 0 {
      assert out + added == out;
    } else {
      CountAppend(out, added[0], IsDelta);
      CountAppend(out, added[0], IsStop);
      if |added| == 1 {
        assert out + added == out + [added[0]];
      } else {
        CountAppend(out + [added[0]], added[1], IsDelta);
        CountAppend(out + [added[0]], added[1], IsStop);
        assert out + added == out + [added[0]] + [added[1]];
      }
    }
  }

  lemma FinishTerminates(s: State)
    requires TerminatedWhenClosed(s)
    ensures TerminatedWhenClosed(Finish(s)) && Finish(s).closed && Finish(s).errored == s.errored
  {
    if !s.closed {
      var reason := if s.stopReason.Some? then s.stopReason.value else "end_turn";
      var first, second := EvMessageDelta(reason, s.outputTokens), EvMessageStop;
      CountAppend(s.out, first, IsDelta);
      CountAppend(s.out, first, IsStop);
      CountAppend(s.out + [first], second, IsDelta);
      CountAppend(s.out + [first], second, IsStop);
      assert s.out + [first, second] == s.out + [first] + [second];
    }
  }

  lemma {:induction false} OnFramesTerminates(s: State, fs: seq<Frame>)
    requires TerminatedWhenClosed(s)
    ensures var s' := OnFrames(s, fs);
            && TerminatedWhenClosed(s')
            && (s'.closed <==> s.closed || exists f :: f in fs && f.Metadata?)
            && (s'.errored <==> s.errored || exists f :: f in fs && f.ErrorFrame?)
    decreases |fs|
  {
    if fs != [] {
      OnFrameTerminates(s, fs[0]);
      OnFramesTerminates(OnFrame(s, fs[0]), fs[1..]);
      assert fs == [fs[0]] + fs[1..];
    }
  }

  /** Whatever frames arrive, the client gets one terminal pair after the close exactly when the
      usage arrived or no error was reported, and none otherwise. */
  lemma OneTerminator(fs: seq<Frame>)
    ensures var s := Closed(OnFrames(INITIAL, fs));
            Count(s.out, IsDelta) == Count(s.out, IsStop)
            == if (exists f :: f in fs && f.Metadata?) || !(exists f :: f in fs && f.ErrorFrame?) then 1 else 0
  {
    OnFramesTerminates(INITIAL, fs);
    var s := OnFrames(INITIAL, fs);
    if !s.closed && !s.errored {
      FinishTerminates(s);
    }
  }
}
