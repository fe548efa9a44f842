/** The sink that speaks OpenAI's chat.completion.chunk dialect. */
module OpenAISink {
  import opened Wrappers
  import opened Frames

  datatype Chunk =
    | Role
    | ToolCall(index: int, id: string, name: string)
    | ToolArguments(index: int, arguments: string)
    | Content(text: string)
    | FinishReason(reason: string)
    | UsageTotals(prompt: int, completion: int, total: int)
    | DoneMarker

  datatype State = State(
    out: seq<Chunk>,
    includeUsage: bool,
    roleSent: bool,
    finished: bool,
    toolIndexByBlock: map<int, int>,
    nextToolIndex: int,
    inputTokens: int,
    outputTokens: int)

  function Initial(includeUsage: bool): State {
    State([], includeUsage, false, false, map[], 0, 0, 0)
  }

  function FinishReasonOf(reason: string): string {
    if reason == "tool_use" then "tool_calls"
    else if reason == "max_tokens" then "length"
    else if reason == "content_filtered" || reason == "guardrail_intervened" then "content_filter"
    else "stop"
  }

  /* ----- One frame as a function ----- */

  function WithRole(s: State, c: Chunk): State {
    s.(roleSent := true, out := s.out + (if s.roleSent then [c] else [Role, c]))
  }

  function OnFrame(s: State, f: Frame): State {
    match f
    case MessageStart => s.(roleSent := true, out := s.out + [Role])
    case BlockStart(index, tool) =>
      if tool.None? then s
      else
        WithRole(s.(toolIndexByBlock := s.toolIndexByBlock[index := s.nextToolIndex], nextToolIndex := s.nextToolIndex + 1),
                 ToolCall(s.nextToolIndex, tool.value.id, tool.value.name))
    case BlockDelta(index, text, input) =>
      if text != "" then WithRole(s, Content(text))
      else if input.Some? && input.value != "" && index in s.toolIndexByBlock then
        WithRole(s, ToolArguments(s.toolIndexByBlock[index], input.value))
      else s
    case BlockStop(_) => s
    case MessageStop(reason) => s.(finished := true, out := s.out + [FinishReason(FinishReasonOf(reason))])
    case Metadata(i, o) =>
      s.(inputTokens := i, outputTokens := o, out := s.out + (if s.includeUsage then [UsageTotals(i, o, i + o)] else []))
    case ErrorFrame(_) => s
    case OtherFrame => s
  }

  function Closed(s: State): State {
    s.(out := s.out + (if s.finished then [DoneMarker] else [FinishReason("stop"), DoneMarker]))
  }

  function OnFrames(s: State, fs: seq<Frame>): State
    decreases |fs|
  {
    if fs == [] then s else OnFrames(OnFrame(s, fs[0]), fs[1..])
  }

  /* ----- The sink object ----- */

  class StreamSink {
    var out: seq<Chunk>
    var includeUsage: bool
    var roleSent: bool
    var finished: bool
    var toolIndexByBlock: map<int, int>
    var nextToolIndex: int
    var inputTokens: int
    var outputTokens: int

    function Current(): State
      reads this
    {
      State(out, includeUsage, roleSent, finished, toolIndexByBlock, nextToolIndex, inputTokens, outputTokens)
    }

    constructor (includeUsage: bool)
      ensures Current() == Initial(includeUsage)
    {
      this.includeUsage := includeUsage;
      out, roleSent, finished, toolIndexByBlock := [], false, false, map[];
      nextToolIndex, inputTokens, outputTokens := 0, 0, 0;
    }

    method Write(c: Chunk)
      modifies this`out
      ensures out == old(out) + [c]
    {
      out := out + [c];
    }

    method EnsureRoleThen(c: Chunk)
      modifies this
      ensures Current() == WithRole(old(Current()), c)
    {
      if !roleSent {
        roleSent := true;
        Write(Role);
      }
      Write(c);
    }

    method HandleFrame(f: Frame)
      modifies this
      ensures Current() == OnFrame(old(Current()), f)
    {
      match f
      case MessageStart =>
        roleSent := true;
        Write(Role);
      case BlockStart(index, tool) =>
        if tool.None? {
          return;
        }
        var idx := nextToolIndex;
        toolIndexByBlock := toolIndexByBlock[index := idx];
        nextToolIndex := nextToolIndex + 1;
        EnsureRoleThen(ToolCall(idx, tool.value.id, tool.value.name));
      case BlockDelta(index, text, input) =>
        if text != "" {
          EnsureRoleThen(Content(text));
          return;
        }
        if input.Some? && input.value != "" {
          if index !in toolIndexByBlock {
            return;
          }
          EnsureRoleThen(ToolArguments(toolIndexByBlock[index], input.value));
        }
      case BlockStop(_) =>
      case MessageStop(reason) =>
        finished := true;
        Write(FinishReason(FinishReasonOf(reason)));
      case Metadata(i, o) =>
        inputTokens := i;
        outputTokens := o;
        if includeUsage {
          Write(UsageTotals(inputTokens, outputTokens, inputTokens + outputTokens));
        }
      case ErrorFrame(_) =>
      case OtherFrame =>
    }

    method Close()
      modifies this
      ensures Current() == Closed(old(Current()))
    {
      if !finished {
        Write(FinishReason("stop"));
      }
      Write(DoneMarker);
    }
  }

  /* ----- The terminator ----- */

  function Finishes(cs: seq<Chunk>): nat {
    if cs == [] then 0 else Finishes(cs[..|cs| - 1]) + (if cs[|cs| - 1].FinishReason? then 1 else 0)
  }

  function Stops(fs: seq<Frame>): nat {
    if fs == [] then 0 else (if fs[0].MessageStop? then 1 else 0) + Stops(fs[1..])
  }

  lemma {:induction false} FinishesAppend(a: seq<Chunk>, b: seq<Chunk>)
    ensures Finishes(a + b) == Finishes(a) + Finishes(b)
    decreases |b|
  {
    if b == [] {
      assert a + b == a;
    } else {
      FinishesAppend(a, b[..|b| - 1]);
      assert (a + b)[..|a + b| - 1] == a + b[..|b| - 1];
    }
  }

  lemma OnFrameFinishes(s: State, f: Frame)
    ensures Finishes(OnFrame(s, f).out) == Finishes(s.out) + (if f.MessageStop? then 1 else 0)
    ensures OnFrame(s, f).finished == (s.finished || f.MessageStop?)
    ensures DoneMarker !in s.out ==> DoneMarker !in OnFrame(s, f).out
  {
    match f
    case MessageStart => FinishesOne(s.out, Role);
    case BlockStart(index, Some(tool)) => WithRoleFinishes(s, ToolCall(s.nextToolIndex, tool.id, tool.name));
    case BlockDelta(index, text, input) =>
      if text != "" {
        WithRoleFinishes(s, Content(text));
      } else if input.Some? && index in s.toolIndexByBlock {
        WithRoleFinishes(s, ToolArguments(s.toolIndexByBlock[index], input.value));
      }
    case MessageStop(reason) => FinishesOne(s.out, FinishReason(FinishReasonOf(reason)));
    case Metadata(i, o) =>
      if s.includeUsage {
        FinishesOne(s.out, UsageTotals(i, o, i + o));
      } else {
        assert s.out + [] == s.out;
      }
    case _ =>
  }

  lemma FinishesOne(out: seq<Chunk>, c: Chunk)
    ensures Finishes(out + [c]) == Finishes(out) + (if c.FinishReason? then 1 else 0)
  {
    assert (out + [c])[..|out + [c]| - 1] == out;
  }

  lemma WithRoleFinishes(s: State, c: Chunk)
    requires !c.FinishReason? && !c.DoneMarker?
    ensures Finishes(WithRole(s, c).out) == Finishes(s.out)
    ensures DoneMarker !in s.out ==> DoneMarker !in WithRole(s, c).out
  {
    if s.roleSent {
      FinishesOne(s.out, c);
    } else {
      FinishesOne(s.out, Role);
      FinishesOne(s.out + [Role], c);
      assert s.out + [Role, c] == s.out + [Role] + [c];
    }
  }

  lemma {:induction false} OnFramesFinishes(s: State, fs: seq<Frame>)
    requires DoneMarker !in s.out
    ensures Finishes(OnFrames(s, fs).out) == Finishes(s.out) + Stops(fs)
    ensures OnFrames(s, fs).finished <==> s.finished || Stops(fs) > 0
    ensures DoneMarker !in OnFrames(s, fs).out
    decreases |fs|
  {
    if fs != [] {
      OnFrameFinishes(s, fs[0]);
      OnFramesFinishes(OnFrame(s, fs[0]), fs[1..]);
    }
  }

  /** Whatever frames arrive, the stream ends with its only done marker, and carries one finish
      chunk for each stop frame, or a single default one if there was none. */
  lemma OneDoneMarker(includeUsage: bool, fs: seq<Frame>)
    ensures var out := Closed(OnFrames(Initial(includeUsage), fs)).out;
            && out != []
            && out[|out| - 1] == DoneMarker
            && DoneMarker !in out[..|out| - 1]
            && Finishes(out) == if Stops(fs) == 0 then 1 else Stops(fs)
  {
    var s := OnFrames(Initial(includeUsage), fs);
    OnFramesFinishes(Initial(includeUsage), fs);
    var tail := if s.finished then [DoneMarker] else [FinishReason("stop"), DoneMarker];
    FinishesAppend(s.out, tail);
    assert [DoneMarker][..0] == [];
    assert [FinishReason("stop"), DoneMarker][..1] == [FinishReason("stop")];
    assert [FinishReason("stop")][..0] == [];
    assert (s.out + tail)[..|s.out + tail| - 1] == s.out + tail[..|tail| - 1];
  }
}
