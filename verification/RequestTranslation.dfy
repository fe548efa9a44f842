/** A chat request on its way to the provider: OpenAI messages become Converse turns, and these
    become the Responses API's input items. JSON decoding and encoding are parameters. */
module RequestTranslation {
  import opened Wrappers
  import opened Text

  /* ----- The three shapes ----- */

  datatype ToolCall = ToolCall(id: string, name: string, arguments: string)

  /** An OpenAI message, its content already reduced to text. */
  datatype Chat = Chat(role: string, text: string, calls: seq<ToolCall>, toolCallId: string)

  datatype ToolUse = ToolUse(id: string, name: string, input: string)

  datatype ToolResult = ToolResult(id: string, content: seq<Block>)

  datatype Block = Block(text: string, toolUse: Option<ToolUse>, toolResult: Option<ToolResult>)

  datatype Turn = Turn(role: string, content: seq<Block>)

  datatype Item =
    | Said(role: string, content: string)
    | FunctionCall(callId: string, name: string, arguments: string)
    | FunctionOutput(callId: string, output: string)

  /** How a call's arguments are decoded from the request and encoded for the provider. */
  datatype Codec = Codec(decode: string -> string, encode: string -> string)

  /* ----- From messages to turns ----- */

  predicate IsSystem(m: Chat) {
    Trim(m.role) in {"system", "developer"}
  }

  predicate IsTool(m: Chat) {
    Trim(m.role) == "tool"
  }

  function RoleOf(m: Chat): string {
    if Trim(m.role) in {"user", "assistant"} then Trim(m.role) else "user"
  }

  function TextBlock(text: string): Block {
    Block(text, None, None)
  }

  function ResultBlock(m: Chat): Block {
    Block("", None, Some(ToolResult(m.toolCallId, [TextBlock(m.text)])))
  }

  function UseBlock(codec: Codec, tc: ToolCall): Block {
    Block("", Some(ToolUse(tc.id, tc.name, codec.decode(tc.arguments))), None)
  }

  function UseBlocks(codec: Codec, calls: seq<ToolCall>): seq<Block>
    decreases |calls|
  {
    if calls == [] then [] else [UseBlock(codec, calls[0])] + UseBlocks(codec, calls[1..])
  }

  /** What a message other than a system message says, as blocks. */
  function Blocks(codec: Codec, m: Chat): seq<Block> {
    if IsTool(m) then [ResultBlock(m)]
    else (if m.text != "" then [TextBlock(m.text)] else []) + UseBlocks(codec, m.calls)
  }

  function Spoken(ms: seq<Chat>): seq<Chat>
    decreases |ms|
  {
    if ms == [] then [] else (if IsSystem(ms[0]) then [] else [ms[0]]) + Spoken(ms[1..])
  }

  function SystemTexts(ms: seq<Chat>): seq<string>
    decreases |ms|
  {
    if ms == [] then []
    else (if IsSystem(ms[0]) && ms[0].text != "" then [ms[0].text] else []) + SystemTexts(ms[1..])
  }

  function LeadingTools(ms: seq<Chat>): (n: nat)
    ensures n <= |ms|
    ensures forall i :: 0 <= i < n ==> IsTool(ms[i])
    ensures n < |ms| ==> !IsTool(ms[n])
    decreases |ms|
  {
    if ms == [] || !IsTool(ms[0]) then 0 else 1 + LeadingTools(ms[1..])
  }

  function AllBlocks(codec: Codec, ms: seq<Chat>): seq<Block>
    decreases |ms|
  {
    if ms == [] then [] else Blocks(codec, ms[0]) + AllBlocks(codec, ms[1..])
  }

  /** The turns of a conversation without system messages: every longest run of tool messages makes
      one user turn, every other message with anything to say a turn of its own. */
  function Turns(codec: Codec, ms: seq<Chat>): seq<Turn>
    decreases |ms|
  {
    if ms == [] then []
    else if IsTool(ms[0]) then
      var n := LeadingTools(ms);
      [Turn("user", AllBlocks(codec, ms[..n]))] + Turns(codec, ms[n..])
    else
      (if Blocks(codec, ms[0]) == [] then [] else [Turn(RoleOf(ms[0]), Blocks(codec, ms[0]))]) + Turns(codec, ms[1..])
  }

  /** The turns still to come when some tool results are waiting for the run to end. */
  function Coming(codec: Codec, pending: seq<Block>, ms: seq<Chat>): seq<Turn> {
    if pending == [] then Turns(codec, ms)
    else
      var n := LeadingTools(ms);
      [Turn("user", pending + AllBlocks(codec, ms[..n]))] + Turns(codec, ms[n..])
  }

  lemma {:induction false} AllBlocksConcat(codec: Codec, a: seq<Chat>, b: seq<Chat>)
    ensures AllBlocks(codec, a + b) == AllBlocks(codec, a) + AllBlocks(codec, b)
    decreases |a|
  {
    hide Blocks;
    if a == [] {
      assert a + b == b;
    } else {
      AllBlocksConcat(codec, a[1..], b);
      assert (a + b)[1..] == a[1..] + b;
    }
  }

  lemma ComingTool(codec: Codec, pending: seq<Block>, m: Chat, rest: seq<Chat>)
    requires IsTool(m)
    ensures Coming(codec, pending, [m] + rest) == Coming(codec, pending + [ResultBlock(m)], rest)
  {
    var ms := [m] + rest;
    var n := LeadingTools(rest);
    assert ms[1..] == rest && LeadingTools(ms) == n + 1;
    assert ms[..n + 1] == [m] + rest[..n] && ms[n + 1..] == rest[n..];
    AllBlocksFirst(codec, m, rest[..n]);
    assert pending + ([ResultBlock(m)] + AllBlocks(codec, rest[..n])) == pending + [ResultBlock(m)] + AllBlocks(codec, rest[..n]);
    hide Trim, ResultBlock, AllBlocks, IsTool, LeadingTools;
    if pending == [] {
      assert pending + [ResultBlock(m)] == [ResultBlock(m)];
      assert Turns(codec, ms) == [Turn("user", AllBlocks(codec, ms[..n + 1]))] + Turns(codec, ms[n + 1..]);
    }
  }

  lemma AllBlocksFirst(codec: Codec, m: Chat, rest: seq<Chat>)
    requires IsTool(m)
    ensures AllBlocks(codec, [m] + rest) == [ResultBlock(m)] + AllBlocks(codec, rest)
  {
    assert ([m] + rest)[1..] == rest;
    hide ResultBlock, Trim;
  }

  lemma ComingOther(codec: Codec, pending: seq<Block>, m: Chat, rest: seq<Chat>)
    requires !IsTool(m)
    ensures Coming(codec, pending, [m] + rest)
            == (if pending == [] then [] else [Turn("user", pending)])
               + (if Blocks(codec, m) == [] then [] else [Turn(RoleOf(m), Blocks(codec, m))])
               + Coming(codec, [], rest)
  {
    var ms := [m] + rest;
    assert ms[1..] == rest && LeadingTools(ms) == 0 && ms[0..] == ms && ms[..0] == [];
    assert pending + [] == pending;
    hide Trim, Blocks, RoleOf;
  }

  lemma ComingNothing(codec: Codec, pending: seq<Block>)
    ensures Coming(codec, pending, []) == if pending == [] then [] else [Turn("user", pending)]
  {
    assert pending + [] == pending;
  }

  method FlushToolResults(messages: seq<Turn>, pending: seq<Block>) returns (messages': seq<Turn>, pending': seq<Block>)
    ensures messages' == messages + if pending == [] then [] else [Turn("user", pending)]
    ensures pending' == []
  {
    messages', pending' := messages, pending;
    if |pending| > 0 {
      messages' := messages' + [Turn("user", pending)];
      pending' := [];
    }
  }

  method OwnBlocks(codec: Codec, m: Chat) returns (blocks: seq<Block>)
    requires !IsTool(m)
    ensures blocks == Blocks(codec, m)
  {
    hide Trim;
    blocks := [];
    if m.text != "" {
      blocks := blocks + [TextBlock(m.text)];
    }
    var k := 0;
    assert m.calls[k..] == m.calls;
    while k < |m.calls|
      invariant 0 <= k <= |m.calls|
      invariant Blocks(codec, m) == blocks + UseBlocks(codec, m.calls[k..])
    {
      blocks := blocks + [UseBlock(codec, m.calls[k])];
      assert m.calls[k..][1..] == m.calls[k + 1..];
      k := k + 1;
    }
  }

  lemma SpokenNext(ms: seq<Chat>, k: nat)
    requires k < |ms|
    ensures Spoken(ms[k..]) == (if IsSystem(ms[k]) then [] else [ms[k]]) + Spoken(ms[k + 1..])
    ensures SystemTexts(ms[k..]) == (if IsSystem(ms[k]) && ms[k].text != "" then [ms[k].text] else []) + SystemTexts(ms[k + 1..])
  {
    assert ms[k..][1..] == ms[k + 1..];
  }

  /** The messages of a request become the turns of its conversation, and its system texts one
      instruction. */
  method ToConverse(codec: Codec, ms: seq<Chat>) returns (messages: seq<Turn>, system: string)
    ensures messages == Turns(codec, Spoken(ms))
    ensures system == Join(SystemTexts(ms), "\n\n")
  {
    hide Trim, Turns, Blocks, RoleOf, Spoken, SystemTexts, Coming, ResultBlock, Join;
    var systemParts, pending := [], [];
    messages := [];
    var k := 0;
    assert ms[k..] == ms;
    NoneWaiting(codec, Spoken(ms));
    while k < |ms|
      invariant 0 <= k <= |ms|
      invariant SystemTexts(ms) == systemParts + SystemTexts(ms[k..])
      invariant Turns(codec, Spoken(ms)) == messages + Coming(codec, pending, Spoken(ms[k..]))
    {
      var m, role := ms[k], Trim(ms[k].role);
      SpokenNext(ms, k);
      ghost var rest := Spoken(ms[k + 1..]);
      assert [] + rest == rest && [] + SystemTexts(ms[k + 1..]) == SystemTexts(ms[k + 1..]);
      if role in {"system", "developer"} {
        if m.text != "" {
          systemParts := systemParts + [m.text];
        }
      } else if role == "tool" {
        ComingTool(codec, pending, m, rest);
        pending := pending + [ResultBlock(m)];
      } else {
        ComingOther(codec, pending, m, rest);
        messages, pending := FlushToolResults(messages, pending);
        var blocks := OwnBlocks(codec, m);
        if |blocks| != 0 {
          messages := messages + [Turn(if role != "user" && role != "assistant" then "user" else role, blocks)];
          RoleIs(m);
        }
      }
      k := k + 1;
    }
    NothingSpoken(ms[k..]);
    assert systemParts + [] == systemParts;
    ComingNothing(codec, pending);
    messages, pending := FlushToolResults(messages, pending);
    system := Join(systemParts, "\n\n");
  }

  lemma RoleIs(m: Chat)
    ensures RoleOf(m) == if Trim(m.role) != "user" && Trim(m.role) != "assistant" then "user" else Trim(m.role)
  {
  }

  lemma NoneWaiting(codec: Codec, ms: seq<Chat>)
    ensures Coming(codec, [], ms) == Turns(codec, ms)
  {
  }

  lemma NothingSpoken(ms: seq<Chat>)
    requires ms == []
    ensures Spoken(ms) == [] && SystemTexts(ms) == []
  {
  }

  /* ----- What the turns keep ----- */

  function Flatten(turns: seq<Turn>): seq<Block>
    decreases |turns|
  {
    if turns == [] then [] else turns[0].content + Flatten(turns[1..])
  }

  lemma {:induction false} ToolsSaySomething(codec: Codec, ms: seq<Chat>)
    requires forall m :: m in ms ==> IsTool(m)
    ensures |AllBlocks(codec, ms)| == |ms|
    decreases |ms|
  {
    if ms != [] {
      ToolsSaySomething(codec, ms[1..]);
    }
  }

  /** Nothing said is lost, added or moved: the turns, end to end, are the blocks of the messages
      in order; every turn says something, as the user or the assistant. */
  lemma {:induction false} TurnsKeepContent(codec: Codec, ms: seq<Chat>)
    ensures Flatten(Turns(codec, ms)) == AllBlocks(codec, ms)
    ensures forall t :: t in Turns(codec, ms) ==> t.content != [] && t.role in {"user", "assistant"}
    decreases |ms|
  {
    hide Trim, Blocks;
    if ms != [] {
      if IsTool(ms[0]) {
        var n := LeadingTools(ms);
        TurnsKeepContent(codec, ms[n..]);
        AllBlocksConcat(codec, ms[..n], ms[n..]);
        assert ms[..n] + ms[n..] == ms;
        ToolsSaySomething(codec, ms[..n]);
        FlattenCons(Turn("user", AllBlocks(codec, ms[..n])), Turns(codec, ms[n..]));
      } else {
        TurnsKeepContent(codec, ms[1..]);
        FlattenCons(Turn(RoleOf(ms[0]), Blocks(codec, ms[0])), Turns(codec, ms[1..]));
        assert [] + Turns(codec, ms[1..]) == Turns(codec, ms[1..]);
      }
    }
  }

  lemma FlattenCons(t: Turn, ts: seq<Turn>)
    ensures Flatten([t] + ts) == t.content + Flatten(ts)
  {
    assert ([t] + ts)[1..] == ts;
  }

  /** The turns that the first message, or the run of tool messages in front, makes. */
  function FirstTurns(codec: Codec, ms: seq<Chat>): seq<Turn>
    requires ms != []
  {
    if IsTool(ms[0]) then [Turn("user", AllBlocks(codec, ms[..LeadingTools(ms)]))]
    else if Blocks(codec, ms[0]) == [] then []
    else [Turn(RoleOf(ms[0]), Blocks(codec, ms[0]))]
  }

  function FirstLength(ms: seq<Chat>): (n: nat)
    requires ms != []
    ensures 0 < n <= |ms|
  {
    if IsTool(ms[0]) then LeadingTools(ms) else 1
  }

  lemma TurnsUnfold(codec: Codec, ms: seq<Chat>)
    requires ms != []
    ensures Turns(codec, ms) == FirstTurns(codec, ms) + Turns(codec, ms[FirstLength(ms)..])
  {
    hide Blocks, RoleOf, AllBlocks;
  }

  lemma FirstOfBoth(codec: Codec, a: seq<Chat>, b: seq<Chat>)
    requires a != [] && (b != [] ==> !(IsTool(a[|a| - 1]) && IsTool(b[0])))
    ensures FirstTurns(codec, a + b) == FirstTurns(codec, a) && FirstLength(a + b) == FirstLength(a)
    ensures (a + b)[FirstLength(a)..] == a[FirstLength(a)..] + b
  {
    RunInFront(a, b);
    assert (a + b)[0] == a[0];
    assert (a + b)[..LeadingTools(a)] == a[..LeadingTools(a)];
    hide Blocks, RoleOf, AllBlocks, IsTool;
  }

  /** Conversations that do not tear a run of tool messages apart are translated one after the other. */
  lemma {:induction false} TurnsSplit(codec: Codec, a: seq<Chat>, b: seq<Chat>)
    requires a != [] && b != [] ==> !(IsTool(a[|a| - 1]) && IsTool(b[0]))
    ensures Turns(codec, a + b) == Turns(codec, a) + Turns(codec, b)
    decreases |a|
  {
    if a == [] {
      assert a + b == b && Turns(codec, a) == [] && [] + Turns(codec, b) == Turns(codec, b);
    } else {
      hide IsTool, Turns, FirstTurns, LeadingTools, FirstLength;
      var rest := a[FirstLength(a)..];
      TurnsUnfold(codec, a);
      TurnsUnfold(codec, a + b);
      FirstOfBoth(codec, a, b);
      TurnsSplit(codec, rest, b);
      Regroup(FirstTurns(codec, a), Turns(codec, rest), Turns(codec, b));
    }
  }

  lemma Regroup(a: seq<Turn>, b: seq<Turn>, c: seq<Turn>)
    ensures a + (b + c) == a + b + c
  {
  }

  lemma {:induction false} RunInFront(a: seq<Chat>, b: seq<Chat>)
    requires a != [] && b != [] ==> !(IsTool(a[|a| - 1]) && IsTool(b[0]))
    requires a != []
    ensures LeadingTools(a + b) == LeadingTools(a)
    decreases |a|
  {
    hide IsTool;
    assert (a + b)[0] == a[0] && (a + b)[1..] == a[1..] + b;
    if IsTool(a[0]) {
      if |a| == 1 {
        assert a[1..] + b == b;
      } else {
        RunInFront(a[1..], b);
      }
    }
  }

  lemma {:induction false} RunOfResults(codec: Codec, run: seq<Chat>)
    requires forall m :: m in run ==> Trim(m.role) == "tool"
    ensures LeadingTools(run) == |run| && |AllBlocks(codec, run)| == |run|
    ensures forall i :: 0 <= i < |run| ==>
              AllBlocks(codec, run)[i] == Block("", None, Some(ToolResult(run[i].toolCallId, [Block(run[i].text, None, None)])))
    decreases |run|
  {
    if run != [] {
      RunOfResults(codec, run[1..]);
    }
    hide Trim;
  }

  /** The results of tools called together come back together: a run of tool messages, as long as it is,
      makes one user turn with one result for each, in order. */
  lemma RunIsOneTurn(codec: Codec, before: seq<Chat>, run: seq<Chat>, after: seq<Chat>)
    requires run != [] && forall m :: m in run ==> Trim(m.role) == "tool"
    requires (before != [] ==> Trim(before[|before| - 1].role) != "tool") && (after != [] ==> Trim(after[0].role) != "tool")
    ensures exists turn: Turn ::
              && Turns(codec, before + run + after) == Turns(codec, before) + [turn] + Turns(codec, after)
              && turn.role == "user" && |turn.content| == |run|
              && forall i :: 0 <= i < |run| ==>
                   turn.content[i] == Block("", None, Some(ToolResult(run[i].toolCallId, [Block(run[i].text, None, None)])))
  {
    var turn := Turn("user", AllBlocks(codec, run));
    RunOfResults(codec, run);
    assert run[0] in run && run[|run| - 1] in run;
    TurnsSplit(codec, before, run);
    TurnsSplit(codec, before + run, after);
    hide Trim, AllBlocks;
    assert run[..|run|] == run && run[|run|..] == [];
    assert Turns(codec, run) == [turn] + Turns(codec, []);
    assert [turn] + [] == [turn];
  }

  /* ----- From turns to input items ----- */

  function BlockTexts(content: seq<Block>): seq<string>
    decreases |content|
  {
    if content == [] then []
    else (if content[0].text != "" then [content[0].text] else []) + BlockTexts(content[1..])
  }

  method ToolResultText(result: ToolResult) returns (text: string)
    ensures text == Join(BlockTexts(result.content), "\n")
  {
    hide Join;
    var parts, k := [], 0;
    assert result.content[k..] == result.content;
    while k < |result.content|
      invariant 0 <= k <= |result.content|
      invariant BlockTexts(result.content) == parts + BlockTexts(result.content[k..])
    {
      ghost var b, rest := result.content[k], BlockTexts(result.content[k + 1..]);
      assert result.content[k..][1..] == result.content[k + 1..];
      assert BlockTexts(result.content[k..]) == (if b.text != "" then [b.text] else []) + rest;
      hide BlockTexts;
      assert [] + rest == rest;
      if result.content[k].text != "" {
        parts := parts + [result.content[k].text];
      }
      k := k + 1;
    }
    assert parts + [] == parts;
    text := Join(parts, "\n");
  }

  /** One piece of what a turn says: a text, or a call, or a call's output. */
  datatype Piece = Words(text: string) | Tool(item: Item)

  function PiecesOf(codec: Codec, b: Block): seq<Piece> {
    (if b.text != "" then [Words(b.text)] else [])
    + (if b.toolUse.Some?
       then [Tool(FunctionCall(b.toolUse.value.id, b.toolUse.value.name, codec.encode(b.toolUse.value.input)))] else [])
    + (if b.toolResult.Some?
       then [Tool(FunctionOutput(b.toolResult.value.id, Join(BlockTexts(b.toolResult.value.content), "\n")))] else [])
  }

  function Pieces(codec: Codec, content: seq<Block>): seq<Piece>
    decreases |content|
  {
    if content == [] then [] else PiecesOf(codec, content[0]) + Pieces(codec, content[1..])
  }

  function LeadingWords(ps: seq<Piece>): (n: nat)
    ensures n <= |ps|
    ensures forall i :: 0 <= i < n ==> ps[i].Words?
    ensures n < |ps| ==> ps[n].Tool?
    decreases |ps|
  {
    if ps == [] || ps[0].Tool? then 0 else 1 + LeadingWords(ps[1..])
  }

  function Texts(ps: seq<Piece>): (ts: seq<string>)
    requires forall p :: p in ps ==> p.Words?
    ensures |ts| == |ps|
  {
    seq(|ps|, i requires 0 <= i < |ps| => assert ps[i] in ps; ps[i].text)
  }

  /** The items of one turn's pieces: every longest run of texts makes one item, every call and
      every output an item of its own. */
  function Items(role: string, ps: seq<Piece>): seq<Item>
    decreases |ps|
  {
    if ps == [] then []
    else if ps[0].Tool? then [ps[0].item] + Items(role, ps[1..])
    else
      var n := LeadingWords(ps);
      [Said(role, Join(Texts(ps[..n]), "\n"))] + Items(role, ps[n..])
  }

  function Input(codec: Codec, turns: seq<Turn>): seq<Item>
    decreases |turns|
  {
    if turns == [] then []
    else Items(turns[0].role, Pieces(codec, turns[0].content)) + Input(codec, turns[1..])
  }

  /** The items still to come when some texts are waiting for their run to end. */
  function ComingItems(role: string, parts: seq<string>, ps: seq<Piece>): seq<Item> {
    if parts == [] then Items(role, ps)
    else
      var n := LeadingWords(ps);
      [Said(role, Join(parts + Texts(ps[..n]), "\n"))] + Items(role, ps[n..])
  }

  lemma ComingWords(role: string, parts: seq<string>, text: string, rest: seq<Piece>)
    ensures ComingItems(role, parts, [Words(text)] + rest) == ComingItems(role, parts + [text], rest)
  {
    var ps := [Words(text)] + rest;
    var n := LeadingWords(rest);
    assert ps[1..] == rest && LeadingWords(ps) == n + 1;
    assert ps[..n + 1] == [Words(text)] + rest[..n] && ps[n + 1..] == rest[n..];
    assert Texts(ps[..n + 1]) == [text] + Texts(rest[..n]);
    assert parts + ([text] + Texts(rest[..n])) == parts + [text] + Texts(rest[..n]);
    hide Join, LeadingWords, Texts;
    if parts == [] {
      assert parts + [text] + Texts(rest[..n]) == [text] + Texts(rest[..n]);
      assert Items(role, ps) == [Said(role, Join(Texts(ps[..n + 1]), "\n"))] + Items(role, ps[n + 1..]);
    }
  }

  lemma ComingToolItem(role: string, parts: seq<string>, item: Item, rest: seq<Piece>)
    ensures ComingItems(role, parts, [Tool(item)] + rest)
            == (if parts == [] then [] else [Said(role, Join(parts, "\n"))]) + [item] + ComingItems(role, [], rest)
  {
    var ps := [Tool(item)] + rest;
    assert ps[1..] == rest && LeadingWords(ps) == 0 && ps[0..] == ps && ps[..0] == [];
    assert parts + [] == parts;
    hide Join, LeadingWords;
  }

  lemma ComingNoItem(role: string, parts: seq<string>)
    ensures ComingItems(role, parts, []) == if parts == [] then [] else [Said(role, Join(parts, "\n"))]
  {
    assert parts + [] == parts;
  }

  /** Emits the texts gathered so far, if there are any. */
  method FlushText(role: string, items: seq<Item>, parts: seq<string>) returns (items': seq<Item>, parts': seq<string>)
    requires forall p :: p in parts ==> p != ""
    ensures items' == items + if parts == [] then [] else [Said(role, Join(parts, "\n"))]
    ensures parts' == []
  {
    items', parts' := items, parts;
    JoinSaysSomething(parts, "\n");
    hide Join;
    var text := Join(parts, "\n");
    if text != "" {
      items' := items' + [Said(role, text)];
      parts' := [];
    }
  }

  /** One block's text joins the ones gathered; its call and its output end their run. */
  method AddBlock(codec: Codec, role: string, b: Block, items: seq<Item>, parts: seq<string>, ghost rest: seq<Piece>)
    returns (items': seq<Item>, parts': seq<string>)
    requires forall p :: p in parts ==> p != ""
    ensures forall p :: p in parts' ==> p != ""
    ensures items + ComingItems(role, parts, PiecesOf(codec, b) + rest) == items' + ComingItems(role, parts', rest)
  {
    hide Join, ComingItems, BlockTexts;
    items', parts' := items, parts;
    ghost var all, left := PiecesOf(codec, b) + rest, PiecesOf(codec, b) + rest;
    if b.text != "" {
      ghost var more := left[1..];
      assert left == [Words(b.text)] + more;
      ComingWords(role, parts', b.text, more);
      parts', left := parts' + [b.text], more;
    }
    if b.toolUse.Some? {
      var item := FunctionCall(b.toolUse.value.id, b.toolUse.value.name, codec.encode(b.toolUse.value.input));
      items', parts', left := EmitTool(role, items', parts', item, left);
    }
    if b.toolResult.Some? {
      var output := ToolResultText(b.toolResult.value);
      items', parts', left := EmitTool(role, items', parts', FunctionOutput(b.toolResult.value.id, output), left);
    }
    assert left == rest;
  }

  method EmitTool(role: string, items: seq<Item>, parts: seq<string>, item: Item, ghost left: seq<Piece>)
    returns (items': seq<Item>, parts': seq<string>, ghost left': seq<Piece>)
    requires forall p :: p in parts ==> p != ""
    requires left != [] && left[0] == Tool(item)
    ensures parts' == [] && left' == left[1..]
    ensures items + ComingItems(role, parts, left) == items' + ComingItems(role, parts', left')
  {
    hide Join, ComingItems;
    left' := left[1..];
    assert left == [Tool(item)] + left';
    ComingToolItem(role, parts, item, left');
    items', parts' := FlushText(role, items, parts);
    items' := items' + [item];
  }

  /** A turn's items: calls and outputs as they are, and between them the texts joined by line
      breaks. */
  method TurnItems(codec: Codec, turn: Turn, items: seq<Item>) returns (items': seq<Item>)
    ensures items' == items + Items(turn.role, Pieces(codec, turn.content))
  {
    hide Join, Items, ComingItems, PiecesOf;
    var parts, k := [], 0;
    items' := items;
    NoPartsWaiting(turn.role, Pieces(codec, turn.content));
    assert turn.content[k..] == turn.content;
    while k < |turn.content|
      invariant 0 <= k <= |turn.content|
      invariant forall p :: p in parts ==> p != ""
      invariant items' + ComingItems(turn.role, parts, Pieces(codec, turn.content[k..]))
                == items + Items(turn.role, Pieces(codec, turn.content))
    {
      assert turn.content[k..][1..] == turn.content[k + 1..];
      items', parts := AddBlock(codec, turn.role, turn.content[k], items', parts, Pieces(codec, turn.content[k + 1..]));
      k := k + 1;
    }
    ComingNoItem(turn.role, parts);
    items', parts := FlushText(turn.role, items', parts);
  }

  lemma NoPartsWaiting(role: string, ps: seq<Piece>)
    ensures ComingItems(role, [], ps) == Items(role, ps)
  {
  }

  method ConverseToResponsesInput(codec: Codec, turns: seq<Turn>) returns (items: seq<Item>)
    ensures items == Input(codec, turns)
  {
    hide Items, Pieces;
    items := [];
    var k := 0;
    assert turns[k..] == turns;
    while k < |turns|
      invariant 0 <= k <= |turns|
      invariant Input(codec, turns) == items + Input(codec, turns[k..])
    {
      assert turns[k..][1..] == turns[k + 1..];
      items := TurnItems(codec, turns[k], items);
      k := k + 1;
    }
  }

  /* ----- What the items keep ----- */

  function ToolItems(items: seq<Item>): seq<Item>
    decreases |items|
  {
    if items == [] then [] else (if items[0].Said? then [] else [items[0]]) + ToolItems(items[1..])
  }

  function ToolsIn(ps: seq<Piece>): seq<Item>
    decreases |ps|
  {
    if ps == [] then [] else (if ps[0].Tool? && !ps[0].item.Said? then [ps[0].item] else []) + ToolsIn(ps[1..])
  }

  lemma {:induction false} WordsAreNoTools(ps: seq<Piece>)
    ensures ToolsIn(ps[LeadingWords(ps)..]) == ToolsIn(ps)
    decreases |ps|
  {
    if ps != [] && ps[0].Words? {
      WordsAreNoTools(ps[1..]);
      assert ps[LeadingWords(ps)..] == ps[1..][LeadingWords(ps[1..])..];
    } else {
      assert ps[LeadingWords(ps)..] == ps;
    }
  }

  lemma {:induction false} ItemsKeepTools(role: string, ps: seq<Piece>)
    ensures ToolItems(Items(role, ps)) == ToolsIn(ps)
    decreases |ps|
  {
    if ps != [] {
      if ps[0].Tool? {
        ItemsKeepTools(role, ps[1..]);
      } else {
        WordsAreNoTools(ps);
        ItemsKeepTools(role, ps[LeadingWords(ps)..]);
      }
    }
    hide Join;
  }

  lemma {:induction false} WordsInFront(a: seq<Piece>, b: seq<Piece>)
    requires a != [] && (b != [] ==> a[|a| - 1].Tool? || b[0].Tool?)
    ensures LeadingWords(a + b) == LeadingWords(a)
    decreases |a|
  {
    assert (a + b)[0] == a[0] && (a + b)[1..] == a[1..] + b;
    if a[0].Words? {
      if |a| == 1 {
        assert a[1..] + b == b;
      } else {
        WordsInFront(a[1..], b);
      }
    }
  }

  function FirstItem(role: string, ps: seq<Piece>): Item
    requires ps != []
  {
    if ps[0].Tool? then ps[0].item else Said(role, Join(Texts(ps[..LeadingWords(ps)]), "\n"))
  }

  function FirstPieces(ps: seq<Piece>): (n: nat)
    requires ps != []
    ensures 0 < n <= |ps|
  {
    if ps[0].Tool? then 1 else LeadingWords(ps)
  }

  lemma FirstItemOfBoth(role: string, a: seq<Piece>, b: seq<Piece>)
    requires a != [] && (b != [] ==> a[|a| - 1].Tool? || b[0].Tool?)
    ensures FirstItem(role, a + b) == FirstItem(role, a) && FirstPieces(a + b) == FirstPieces(a)
    ensures (a + b)[FirstPieces(a)..] == a[FirstPieces(a)..] + b
  {
    WordsInFront(a, b);
    assert (a + b)[0] == a[0];
    assert (a + b)[..LeadingWords(a)] == a[..LeadingWords(a)];
    hide Join, Texts;
  }

  /** A turn can be taken apart wherever no two texts meet. */
  lemma {:induction false} ItemsSplit(role: string, a: seq<Piece>, b: seq<Piece>)
    requires a != [] && b != [] ==> a[|a| - 1].Tool? || b[0].Tool?
    ensures Items(role, a + b) == Items(role, a) + Items(role, b)
    decreases |a|
  {
    if a == [] {
      assert a + b == b && Items(role, a) == [] && [] + Items(role, b) == Items(role, b);
    } else {
      var rest := a[FirstPieces(a)..];
      FirstItemOfBoth(role, a, b);
      assert Items(role, a) == [FirstItem(role, a)] + Items(role, rest);
      assert Items(role, a + b) == [FirstItem(role, a)] + Items(role, rest + b);
      hide Items, FirstItem, LeadingWords;
      ItemsSplit(role, rest, b);
      assert [FirstItem(role, a)] + (Items(role, rest) + Items(role, b)) == [FirstItem(role, a)] + Items(role, rest) + Items(role, b);
    }
  }

  /** Blocks of nothing but text. */
  predicate OnlyTexts(content: seq<Block>) {
    forall b :: b in content ==> b.toolUse.None? && b.toolResult.None?
  }

  /** The texts of a list of blocks, without the empty ones. */
  function SomeTexts(content: seq<Block>): seq<string>
    decreases |content|
  {
    if content == [] then []
    else SomeTexts(content[..|content| - 1]) + (var t := content[|content| - 1].text; if t == "" then [] else [t])
  }

  lemma {:induction false} TextsFirst(b: Block, rest: seq<Block>)
    ensures SomeTexts([b] + rest) == (if b.text == "" then [] else [b.text]) + SomeTexts(rest)
    decreases |rest|
  {
    var all := [b] + rest;
    if rest == [] {
      assert all[..0] == [];
    } else {
      TextsFirst(b, rest[..|rest| - 1]);
      assert all[..|all| - 1] == [b] + rest[..|rest| - 1];
    }
  }

  lemma {:induction false} TextsAre(content: seq<Block>)
    ensures BlockTexts(content) == SomeTexts(content)
    decreases |content|
  {
    if content != [] {
      TextsAre(content[1..]);
      TextsFirst(content[0], content[1..]);
      assert [content[0]] + content[1..] == content;
    }
  }

  lemma {:induction false} TextPieces(codec: Codec, content: seq<Block>)
    requires OnlyTexts(content)
    ensures forall p :: p in Pieces(codec, content) ==> p.Words?
    ensures Texts(Pieces(codec, content)) == BlockTexts(content)
    decreases |content|
  {
    if content != [] {
      assert content[0] in content;
      TextPieces(codec, content[1..]);
    }
  }

  lemma AllWords(ps: seq<Piece>)
    requires forall p :: p in ps ==> p.Words?
    ensures LeadingWords(ps) == |ps|
  {
    var n := LeadingWords(ps);
    if n < |ps| {
      assert !ps[n].Words?;
    }
  }

  /** Texts that follow one another are told as one, each on its line; none are told as nothing. */
  lemma TextsAreOneItem(codec: Codec, role: string, content: seq<Block>)
    requires OnlyTexts(content)
    ensures Items(role, Pieces(codec, content))
            == if SomeTexts(content) == [] then [] else [Said(role, Join(SomeTexts(content), "\n"))]
  {
    TextPieces(codec, content);
    TextsAre(content);
    var ps := Pieces(codec, content);
    hide Pieces, BlockTexts, SomeTexts, Join;
    if ps != [] {
      AllWords(ps);
      assert ps[..|ps|] == ps && ps[|ps|..] == [];
      assert ps[0] in ps;
    }
  }

  /** What a call or an output without a text of its own is told as. */
  function ToolItem(codec: Codec, b: Block): Item
    requires b.toolUse.Some? || b.toolResult.Some?
  {
    if b.toolUse.Some? then FunctionCall(b.toolUse.value.id, b.toolUse.value.name, codec.encode(b.toolUse.value.input))
    else FunctionOutput(b.toolResult.value.id, Join(SomeTexts(b.toolResult.value.content), "\n"))
  }

  lemma OneTool(codec: Codec, role: string, b: Block)
    requires b.text == "" && (b.toolUse.Some? <==> b.toolResult.None?)
    ensures Pieces(codec, [b]) == [Tool(ToolItem(codec, b))]
    ensures Items(role, [Tool(ToolItem(codec, b))]) == [ToolItem(codec, b)]
  {
    if b.toolResult.Some? {
      TextsAre(b.toolResult.value.content);
    }
    assert PiecesOf(codec, b) == [Tool(ToolItem(codec, b))];
    assert Pieces(codec, [b]) == PiecesOf(codec, b) + Pieces(codec, []);
    var ps := [Tool(ToolItem(codec, b))];
    assert ps[1..] == [] && Items(role, ps[1..]) == [];
  }

  /** A call or an output stands by itself, wherever it is among the texts of its turn, and a result's
      texts are told each on its line. */
  lemma ToolsStandAlone(codec: Codec, role: string, before: seq<Block>, b: Block, after: seq<Block>)
    requires b.text == "" && (b.toolUse.Some? <==> b.toolResult.None?)
    ensures Items(role, Pieces(codec, before + [b] + after))
            == Items(role, Pieces(codec, before)) + [ToolItem(codec, b)] + Items(role, Pieces(codec, after))
  {
    hide PiecesOf, Pieces, Items, ToolItem;
    var tool := Tool(ToolItem(codec, b));
    OneTool(codec, role, b);
    PiecesConcat(codec, before, [b]);
    PiecesConcat(codec, before + [b], after);
    ItemsSplit(role, Pieces(codec, before), [tool]);
    ItemsSplit(role, Pieces(codec, before) + [tool], Pieces(codec, after));
  }

  /* ----- From a chat request to the provider's input ----- */

  function CallItems(codec: Codec, calls: seq<ToolCall>): seq<Item>
    decreases |calls|
  {
    if calls == [] then []
    else [FunctionCall(calls[0].id, calls[0].name, codec.encode(codec.decode(calls[0].arguments)))] + CallItems(codec, calls[1..])
  }

  /** What a message is to the provider: a tool's message its output, another one its text and then
      its calls. */
  function MessageItems(codec: Codec, m: Chat): seq<Item> {
    if IsTool(m) then [FunctionOutput(m.toolCallId, m.text)]
    else (if m.text != "" then [Said(RoleOf(m), m.text)] else []) + CallItems(codec, m.calls)
  }

  function ChatItems(codec: Codec, ms: seq<Chat>): seq<Item>
    decreases |ms|
  {
    if ms == [] then [] else MessageItems(codec, ms[0]) + ChatItems(codec, ms[1..])
  }

  lemma {:induction false} PiecesConcat(codec: Codec, a: seq<Block>, b: seq<Block>)
    ensures Pieces(codec, a + b) == Pieces(codec, a) + Pieces(codec, b)
    decreases |a|
  {
    hide PiecesOf;
    if a == [] {
      assert a + b == b;
    } else {
      PiecesConcat(codec, a[1..], b);
      assert (a + b)[1..] == a[1..] + b;
    }
  }

  function ToolPieces(items: seq<Item>): (ps: seq<Piece>)
    ensures |ps| == |items|
  {
    seq(|items|, i requires 0 <= i < |items| => Tool(items[i]))
  }

  lemma {:induction false} ToolPiecesItems(role: string, items: seq<Item>)
    ensures Items(role, ToolPieces(items)) == items
    decreases |items|
  {
    if items != [] {
      ToolPiecesItems(role, items[1..]);
      assert ToolPieces(items)[1..] == ToolPieces(items[1..]);
    }
  }

  lemma {:induction false} CallPieces(codec: Codec, calls: seq<ToolCall>)
    ensures Pieces(codec, UseBlocks(codec, calls)) == ToolPieces(CallItems(codec, calls))
    decreases |calls|
  {
    if calls != [] {
      CallPieces(codec, calls[1..]);
      var tc := calls[0];
      var item := FunctionCall(tc.id, tc.name, codec.encode(codec.decode(tc.arguments)));
      assert PiecesOf(codec, UseBlock(codec, tc)) == [Tool(item)];
      assert ToolPieces([item] + CallItems(codec, calls[1..])) == [Tool(item)] + ToolPieces(CallItems(codec, calls[1..]));
    }
  }

  /** A turn made of one message other than a tool's. */
  lemma OwnTurnItems(codec: Codec, m: Chat)
    requires !IsTool(m)
    ensures Items(RoleOf(m), Pieces(codec, Blocks(codec, m))) == MessageItems(codec, m)
  {
    var tools := ToolPieces(CallItems(codec, m.calls));
    CallPieces(codec, m.calls);
    ToolPiecesItems(RoleOf(m), CallItems(codec, m.calls));
    if m.text != "" {
      assert Blocks(codec, m) == [TextBlock(m.text)] + UseBlocks(codec, m.calls);
      PiecesConcat(codec, [TextBlock(m.text)], UseBlocks(codec, m.calls));
      OneText(codec, m.text);
      TextFirst(RoleOf(m), m.text, tools);
    } else {
      assert Blocks(codec, m) == UseBlocks(codec, m.calls);
    }
    hide Items, Pieces, ToolPieces, RoleOf, Blocks, CallItems;
  }

  lemma OneText(codec: Codec, text: string)
    requires text != ""
    ensures Pieces(codec, [TextBlock(text)]) == [Words(text)]
  {
    assert PiecesOf(codec, TextBlock(text)) == [Words(text)];
  }

  lemma TextFirst(role: string, text: string, tools: seq<Piece>)
    requires forall p :: p in tools ==> p.Tool?
    ensures Items(role, [Words(text)] + tools) == [Said(role, text)] + Items(role, tools)
  {
    var ps := [Words(text)] + tools;
    assert ps[1..] == tools && LeadingWords(tools) == 0 && LeadingWords(ps) == 1;
    assert Texts(ps[..1]) == [text];
  }

  /** A turn made of tool messages. */
  lemma {:induction false} ToolTurnItems(codec: Codec, ms: seq<Chat>)
    requires forall m :: m in ms ==> IsTool(m)
    ensures Pieces(codec, AllBlocks(codec, ms)) == ToolPieces(ChatItems(codec, ms))
    decreases |ms|
  {
    hide Blocks, MessageItems, IsTool;
    if ms != [] {
      hide Pieces;
      var m, rest := ms[0], ms[1..];
      ToolTurnItems(codec, rest);
      OutputPiece(codec, m);
      PiecesConcat(codec, Blocks(codec, m), AllBlocks(codec, rest));
      ToolPiecesConcat(MessageItems(codec, m), ChatItems(codec, rest));
    }
  }

  lemma ToolPiecesConcat(a: seq<Item>, b: seq<Item>)
    ensures ToolPieces(a + b) == ToolPieces(a) + ToolPieces(b)
  {
  }

  lemma OutputPiece(codec: Codec, m: Chat)
    requires IsTool(m)
    ensures Pieces(codec, Blocks(codec, m)) == ToolPieces(MessageItems(codec, m))
  {
    var b := ResultBlock(m);
    assert BlockTexts([TextBlock(m.text)]) == if m.text != "" then [m.text] else [];
    assert PiecesOf(codec, b) == [Tool(FunctionOutput(m.toolCallId, m.text))];
    assert Pieces(codec, [b]) == PiecesOf(codec, b) + Pieces(codec, []);
    hide Trim;
  }

  lemma {:induction false} ChatItemsConcat(codec: Codec, a: seq<Chat>, b: seq<Chat>)
    ensures ChatItems(codec, a + b) == ChatItems(codec, a) + ChatItems(codec, b)
    decreases |a|
  {
    hide MessageItems;
    if a == [] {
      assert a + b == b;
    } else {
      ChatItemsConcat(codec, a[1..], b);
      assert (a + b)[1..] == a[1..] + b;
    }
  }

  lemma InputCons(codec: Codec, t: Turn, ts: seq<Turn>)
    ensures Input(codec, [t] + ts) == Items(t.role, Pieces(codec, t.content)) + Input(codec, ts)
  {
    assert ([t] + ts)[1..] == ts;
  }

  /** Both translations together: the provider is given, message by message and in order, every
      text under its role, every call with its id, name and arguments, and every output with its
      call's id. How outputs were grouped on the way makes no difference. */
  lemma {:induction false} TranslationIsFaithful(codec: Codec, ms: seq<Chat>)
    ensures Input(codec, Turns(codec, ms)) == ChatItems(codec, ms)
    decreases |ms|
  {
    hide Items, Pieces, Blocks, MessageItems, Trim, RoleOf;
    if ms != [] {
      if IsTool(ms[0]) {
        var n := LeadingTools(ms);
        var run, rest := ms[..n], ms[n..];
        TranslationIsFaithful(codec, rest);
        ToolTurnItems(codec, run);
        ToolPiecesItems("user", ChatItems(codec, run));
        ChatItemsConcat(codec, run, rest);
        assert run + rest == ms;
        InputCons(codec, Turn("user", AllBlocks(codec, run)), Turns(codec, rest));
      } else {
        OtherIsFaithful(codec, ms[0], ms[1..]);
        TranslationIsFaithful(codec, ms[1..]);
        assert ms == [ms[0]] + ms[1..];
      }
    }
  }

  lemma OtherIsFaithful(codec: Codec, m: Chat, rest: seq<Chat>)
    requires !IsTool(m)
    ensures Input(codec, Turns(codec, [m] + rest)) == MessageItems(codec, m) + Input(codec, Turns(codec, rest))
  {
    OwnTurnItems(codec, m);
    assert ([m] + rest)[1..] == rest;
    if Blocks(codec, m) == [] {
      assert Items(RoleOf(m), Pieces(codec, [])) == [];
      assert [] + Turns(codec, rest) == Turns(codec, rest);
    } else {
      InputCons(codec, Turn(RoleOf(m), Blocks(codec, m)), Turns(codec, rest));
    }
    hide Items, Pieces, Blocks, MessageItems, Trim, RoleOf, Input;
  }

  /** What a conversation says, message by message: system and developer messages apart, a tool's message
      is its call's output, anything else the assistant's or else the user's text and then its calls. */
  function Told(codec: Codec, ms: seq<Chat>): seq<Item>
    decreases |ms|
  {
    if ms == [] then []
    else
      var m, role := ms[0], Trim(ms[0].role);
      (if role == "system" || role == "developer" then []
       else if role == "tool" then [FunctionOutput(m.toolCallId, m.text)]
       else (if m.text == "" then [] else [Said(if role == "assistant" then "assistant" else "user", m.text)])
            + CallItems(codec, m.calls))
      + Told(codec, ms[1..])
  }

  /** The texts of the system and developer messages. */
  function Instructions(ms: seq<Chat>): seq<string>
    decreases |ms|
  {
    if ms == [] then []
    else
      var role := Trim(ms[0].role);
      (if (role == "system" || role == "developer") && ms[0].text != "" then [ms[0].text] else []) + Instructions(ms[1..])
  }

  lemma {:induction false} SpokenIsTold(codec: Codec, ms: seq<Chat>)
    ensures ChatItems(codec, Spoken(ms)) == Told(codec, ms) && SystemTexts(ms) == Instructions(ms)
    decreases |ms|
  {
    hide Trim, CallItems;
    if ms != [] {
      SpokenIsTold(codec, ms[1..]);
      assert [] + ChatItems(codec, Spoken(ms[1..])) == ChatItems(codec, Spoken(ms[1..]));
      assert [] + Spoken(ms[1..]) == Spoken(ms[1..]);
      assert ([ms[0]] + Spoken(ms[1..]))[1..] == Spoken(ms[1..]);
    }
  }

  /** The whole way of a request: what the provider is told is what the messages say, the system
      texts apart. */
  method Translate(codec: Codec, ms: seq<Chat>) returns (instructions: string, input: seq<Item>)
    ensures instructions == Join(Instructions(ms), "\n\n")
    ensures input == Told(codec, ms)
  {
    var messages;
    messages, instructions := ToConverse(codec, ms);
    input := ConverseToResponsesInput(codec, messages);
    TranslationIsFaithful(codec, Spoken(ms));
    SpokenIsTold(codec, ms);
  }
}
