/** Server-sent events: the scanner of the Responses stream, and the native route's sink that
    writes them. A byte is a character; JSON is left alone. */
module ServerSentEvents {
  import opened Text

  datatype Event = Event(name: string, data: string)

  /** The event name and the data lines gathered since the last blank line. */
  datatype Pending = Pending(name: string, data: seq<string>)

  const NOTHING := Pending("", [])

  predicate IsBreak(c: char) {
    c == '\r' || c == '\n'
  }

  function TrimRight(s: string): string
    decreases |s|
  {
    if s != "" && IsBreak(s[|s| - 1]) then TrimRight(s[..|s| - 1]) else s
  }

  /** Where the next line ends: behind its line feed, or at the end of the input. */
  function LineEnd(s: string): (n: nat)
    ensures n <= |s| && (s != "" ==> n > 0)
    decreases |s|
  {
    if s == "" then 0 else if s[0] == '\n' then 1 else 1 + LineEnd(s[1..])
  }

  /** What a blank line dispatches: nothing without data, and not the closing marker. */
  function Dispatched(p: Pending): seq<Event> {
    var payload := Join(p.data, "\n");
    if p.data == [] || payload == "" || payload == "[DONE]" then [] else [Event(p.name, payload)]
  }

  function OnLine(p: Pending, line: string): (Pending, seq<Event>) {
    var t := TrimRight(line);
    if t == "" then (NOTHING, Dispatched(p))
    else if "event:" <= t then (p.(name := Trim(t[6..])), [])
    else if "data:" <= t then (p.(data := p.data + [Trim(t[5..])]), [])
    else (p, [])
  }

  /** The events of an input that ends cleanly or breaks off with an error. */
  function Scan(p: Pending, s: string, clean: bool): seq<Event>
    decreases |s|
  {
    if s == "" then (if clean then Dispatched(p) else [])
    else
      var n := LineEnd(s);
      var (p', es) := OnLine(p, s[..n]);
      es + Scan(p', s[n..], clean)
  }

  method Flush(p: Pending, out: seq<Event>) returns (p': Pending, out': seq<Event>)
    ensures p' == NOTHING && out' == out + Dispatched(p)
  {
    p', out' := NOTHING, out;
    if p.data == [] {
      return;
    }
    var payload := Join(p.data, "\n");
    if payload == "" || payload == "[DONE]" {
      return;
    }
    out' := out + [Event(p.name, payload)];
  }

  /** Handles the events in the order in which their blank lines come; a clean end dispatches what
      is left, an error does not. */
  method ScanSSE(s: string, clean: bool) returns (events: seq<Event>)
    ensures events == Scan(NOTHING, s, clean)
  {
    hide Dispatched, Trim, TrimRight;
    var p, rest := NOTHING, s;
    events := [];
    while rest != ""
      invariant Scan(NOTHING, s, clean) == events + Scan(p, rest, clean)
      decreases |rest|
    {
      var n := LineEnd(rest);
      var t := TrimRight(rest[..n]);
      if t == "" {
        p, events := Flush(p, events);
      } else if "event:" <= t {
        p := p.(name := Trim(t[6..]));
      } else if "data:" <= t {
        p := p.(data := p.data + [Trim(t[5..])]);
      }
      rest := rest[n..];
    }
    if clean {
      p, events := Flush(p, events);
    }
  }

  /* ----- Sending ----- */

  /** An event as its sender means it, its data line by line. */
  datatype Message = Message(name: string, lines: seq<string>)

  predicate Plain(s: string) {
    Trim(s) == s && NoBreak(s)
  }

  predicate Sendable(m: Message) {
    Plain(m.name) && m.lines != [] && forall l :: l in m.lines ==> Plain(l)
  }

  /** How a sender breaks its lines, and what it puts behind a field's colon. */
  datatype Style = Style(eol: string, gap: string)

  predicate Usual(style: Style) {
    (style.eol == "\n" || style.eol == "\r\n") && (style.gap == "" || style.gap == " ")
  }

  function EncodeLines(style: Style, lines: seq<string>): string
    decreases |lines|
  {
    if lines == [] then "" else ("data:" + style.gap + lines[0] + style.eol) + EncodeLines(style, lines[1..])
  }

  /** An event without the blank line that ends it. */
  function Unended(style: Style, m: Message): string {
    ("event:" + style.gap + m.name + style.eol) + EncodeLines(style, m.lines)
  }

  function Encode(style: Style, m: Message): string {
    Unended(style, m) + style.eol
  }

  function EncodeAll(style: Style, ms: seq<Message>): string
    decreases |ms|
  {
    if ms == [] then "" else Encode(style, ms[0]) + EncodeAll(style, ms[1..])
  }

  /** An event with data is received with its lines joined, unless they are the closing marker. */
  function Received(m: Message): seq<Event> {
    if m.lines == [""] || m.lines == ["[DONE]"] then [] else [Event(m.name, Join(m.lines, "\n"))]
  }

  function ReceivedAll(ms: seq<Message>): seq<Event>
    decreases |ms|
  {
    if ms == [] then [] else Received(ms[0]) + ReceivedAll(ms[1..])
  }

  lemma DispatchedIsReceived(m: Message)
    requires Sendable(m)
    ensures Dispatched(Pending(m.name, m.lines)) == Received(m)
  {
    forall l | l in m.lines
      ensures '\n' !in l
    {
    }
    JoinedLines(m.lines);
    OneLineEach();
    assert Join([""], "\n") == "" && Join(["[DONE]"], "\n") == "[DONE]";
    hide Plain, Join, Lines;
  }

  lemma OneLineEach()
    ensures Lines("") == [""] && Lines("[DONE]") == ["[DONE]"]
  {
    FirstLine("[DONE]", "");
  }

  lemma {:induction false} LineEndsAt(line: string, rest: string)
    requires '\n' !in line
    ensures LineEnd(line + "\n" + rest) == |line| + 1
    decreases |line|
  {
    if line == "" {
      assert (line + "\n" + rest)[0] == '\n';
    } else {
      LineEndsAt(line[1..], rest);
      assert (line + "\n" + rest)[1..] == line[1..] + "\n" + rest;
      assert line[0] in line;
    }
  }

  /** A line of text, and what breaks it. */
  predicate Whole(line: string, eol: string) {
    && '\n' !in line && (line == "" || !IsBreak(line[|line| - 1]))
    && (eol == "\n" || eol == "\r\n")
  }

  lemma BreakIsTrimmed(line: string, eol: string)
    requires Whole(line, eol)
    ensures TrimRight(line + eol) == line
  {
    if eol == "\n" {
      assert (line + "\n")[..|line|] == line;
    } else {
      assert (line + "\r\n")[..|line| + 1] == line + "\r";
      assert (line + "\r")[..|line|] == line;
      assert TrimRight(line + "\r") == line;
    }
  }

  lemma LineIsFirst(line: string, eol: string, rest: string)
    requires Whole(line, eol)
    ensures var s := line + eol + rest;
            && s != "" && LineEnd(s) == |line| + |eol| <= |s|
            && s[..LineEnd(s)] == line + eol && s[LineEnd(s)..] == rest
  {
    if eol == "\n" {
      LineEndsAt(line, rest);
    } else {
      LineEndsAt(line + "\r", rest);
      assert line + "\r\n" == line + "\r" + "\n";
    }
    hide LineEnd;
    var s := line + eol + rest;
    assert s[..|line| + |eol|] == line + eol && s[|line| + |eol|..] == rest;
  }

  /** One whole line of the input is handled, and then the rest. */
  lemma OneLine(p: Pending, line: string, eol: string, rest: string, clean: bool)
    requires Whole(line, eol)
    ensures Scan(p, line + eol + rest, clean)
            == if line == "" then Dispatched(p) + Scan(NOTHING, rest, clean)
               else if "event:" <= line then Scan(p.(name := Trim(line[6..])), rest, clean)
               else if "data:" <= line then Scan(p.(data := p.data + [Trim(line[5..])]), rest, clean)
               else Scan(p, rest, clean)
  {
    LineIsFirst(line, eol, rest);
    BreakIsTrimmed(line, eol);
    var s := line + eol + rest;
    assert Scan(p, s, clean) == OnLine(p, line + eol).1 + Scan(OnLine(p, line + eol).0, rest, clean) by {
      hide OnLine, TrimRight, LineEnd, Dispatched;
    }
    hide Scan, TrimRight, LineEnd, Trim, Dispatched;
  }

  /** A field's line, with or without a space behind its colon. */
  lemma Labelled(field: string, gap: string, s: string, eol: string)
    requires Plain(s) && field != "" && NoBreak(field) && (gap == "" || gap == " ") && (eol == "\n" || eol == "\r\n")
    ensures var line := field + gap + s;
            && Whole(line, eol) && field <= line && line[0] == field[0] && Trim(line[|field|..]) == s
  {
    var line := field + gap + s;
    assert line[|field|..] == gap + s;
    SpaceIsTrimmed(s);
    assert "" + s == s;
    hide Trim;
    assert NoBreak(s) && NoBreak(gap);
    NoBreaks(field, gap);
    NoBreaks(field + gap, s);
    assert line[|line| - 1] in line;
  }

  predicate NoBreak(s: string) {
    forall c :: c in s ==> c != '\r' && c != '\n'
  }

  lemma NoBreaks(a: string, b: string)
    requires NoBreak(a) && NoBreak(b)
    ensures NoBreak(a + b)
  {
  }

  lemma SpaceIsTrimmed(s: string)
    ensures Trim(" " + s) == Trim(s)
  {
    assert (" " + s)[1..] == s;
  }

  lemma NameLine(p: Pending, style: Style, name: string, rest: string, clean: bool)
    requires Plain(name) && Usual(style)
    ensures Scan(p, ("event:" + style.gap + name + style.eol) + rest, clean) == Scan(p.(name := name), rest, clean)
  {
    hide Scan, Plain, Trim, Dispatched, Whole;
    Labelled("event:", style.gap, name, style.eol);
    OneLine(p, "event:" + style.gap + name, style.eol, rest, clean);
  }

  lemma DataLine(p: Pending, style: Style, data: string, rest: string, clean: bool)
    requires Plain(data) && Usual(style)
    ensures Scan(p, ("data:" + style.gap + data + style.eol) + rest, clean) == Scan(p.(data := p.data + [data]), rest, clean)
  {
    hide Scan, Plain, Trim, Dispatched, Whole;
    Labelled("data:", style.gap, data, style.eol);
    OneLine(p, "data:" + style.gap + data, style.eol, rest, clean);
  }

  /** A line of any other kind, a comment or another field, changes nothing. */
  lemma OtherLine(p: Pending, line: string, style: Style, rest: string, clean: bool)
    requires Usual(style) && Plain(line) && line != "" && !("event:" <= line) && !("data:" <= line)
    ensures Scan(p, line + style.eol + rest, clean) == Scan(p, rest, clean)
  {
    assert line[|line| - 1] in line;
    OneLine(p, line, style.eol, rest, clean);
    hide Scan, Trim, Dispatched;
  }

  lemma {:induction false} DataLines(p: Pending, style: Style, lines: seq<string>, rest: string, clean: bool)
    requires Usual(style) && forall l :: l in lines ==> Plain(l)
    ensures Scan(p, EncodeLines(style, lines) + rest, clean) == Scan(p.(data := p.data + lines), rest, clean)
    decreases |lines|
  {
    hide Scan, Plain;
    if lines == [] {
      assert EncodeLines(style, lines) + rest == rest && p.data + lines == p.data;
    } else {
      var line, more := "data:" + style.gap + lines[0] + style.eol, EncodeLines(style, lines[1..]) + rest;
      assert EncodeLines(style, lines) + rest == line + more;
      DataLine(p, style, lines[0], more, clean);
      DataLines(p.(data := p.data + [lines[0]]), style, lines[1..], rest, clean);
      assert p.data + [lines[0]] + lines[1..] == p.data + lines;
    }
  }

  lemma UnendedIsPending(style: Style, m: Message, rest: string, clean: bool)
    requires Usual(style) && Sendable(m)
    ensures Scan(NOTHING, Unended(style, m) + rest, clean) == Scan(Pending(m.name, m.lines), rest, clean)
  {
    hide Scan, EncodeLines, Plain;
    var name, data := "event:" + style.gap + m.name + style.eol, EncodeLines(style, m.lines) + rest;
    assert Unended(style, m) + rest == name + data;
    NameLine(NOTHING, style, m.name, data, clean);
    DataLines(Pending(m.name, []), style, m.lines, rest, clean);
    assert [] + m.lines == m.lines;
  }

  lemma OneMessage(style: Style, m: Message, rest: string, clean: bool)
    requires Usual(style) && Sendable(m)
    ensures Scan(NOTHING, Encode(style, m) + rest, clean) == Received(m) + Scan(NOTHING, rest, clean)
  {
    hide Scan, Unended, Dispatched, Plain, Received;
    assert Encode(style, m) + rest == Unended(style, m) + (style.eol + rest);
    UnendedIsPending(style, m, style.eol + rest, clean);
    OneLine(Pending(m.name, m.lines), "", style.eol, rest, clean);
    assert "" + style.eol + rest == style.eol + rest;
    DispatchedIsReceived(m);
  }

  lemma {:induction false} MessagesFirst(style: Style, ms: seq<Message>, rest: string, clean: bool)
    requires Usual(style) && forall m :: m in ms ==> Sendable(m)
    ensures Scan(NOTHING, EncodeAll(style, ms) + rest, clean) == ReceivedAll(ms) + Scan(NOTHING, rest, clean)
    decreases |ms|
  {
    hide Scan, Encode, Sendable, Received;
    if ms == [] {
      assert EncodeAll(style, ms) + rest == rest;
    } else {
      MessagesFirst(style, ms[1..], rest, clean);
      OneMessage(style, ms[0], EncodeAll(style, ms[1..]) + rest, clean);
      assert EncodeAll(style, ms) + rest == Encode(style, ms[0]) + (EncodeAll(style, ms[1..]) + rest);
      Regroup(Received(ms[0]), ReceivedAll(ms[1..]), Scan(NOTHING, rest, clean));
    }
  }

  lemma Regroup(a: seq<Event>, b: seq<Event>, c: seq<Event>)
    ensures a + (b + c) == a + b + c
  {
  }

  /** Scanning what was sent gives the events back in order, without the empty ones and the closing
      markers, however lines are broken and the input ends. */
  lemma EventsRoundTrip(style: Style, ms: seq<Message>, clean: bool)
    requires Usual(style) && forall m :: m in ms ==> Sendable(m)
    ensures Scan(NOTHING, EncodeAll(style, ms), clean) == ReceivedAll(ms)
  {
    MessagesFirst(style, ms, "", clean);
    assert Scan(NOTHING, "", clean) == [];
    assert EncodeAll(style, ms) + "" == EncodeAll(style, ms) && ReceivedAll(ms) + [] == ReceivedAll(ms);
    hide Scan;
  }

  /** An event whose blank line never came is received exactly if the input ends cleanly. */
  lemma UnendedExactly(style: Style, ms: seq<Message>, last: Message, clean: bool)
    requires Usual(style) && Sendable(last) && forall m :: m in ms ==> Sendable(m)
    ensures Scan(NOTHING, EncodeAll(style, ms) + Unended(style, last), clean)
            == ReceivedAll(ms) + if clean then Received(last) else []
  {
    MessagesFirst(style, ms, Unended(style, last), clean);
    UnendedIsPending(style, last, "", clean);
    assert Unended(style, last) + "" == Unended(style, last);
    DispatchedIsReceived(last);
    hide Unended, Received, Dispatched;
    assert Scan(Pending(last.name, last.lines), "", clean) == if clean then Dispatched(Pending(last.name, last.lines)) else [];
    hide Scan;
  }

  /* ----- The native route ----- */

  /** What the native route writes for one frame. */
  function Passthrough(eventType: string, payload: string): string {
    "event: " + eventType + "\n" + "data: " + payload + "\n\n"
  }

  /** A client's scanner reads back from the native route exactly the frame's type and payload, as
      long as both are plain lines and the payload is not the closing marker. */
  lemma PassthroughIsRead(eventType: string, payload: string, rest: string, clean: bool)
    requires Plain(eventType) && Plain(payload) && payload != "" && payload != "[DONE]"
    ensures Scan(NOTHING, Passthrough(eventType, payload) + rest, clean)
            == [Event(eventType, payload)] + Scan(NOTHING, rest, clean)
  {
    var m := Message(eventType, [payload]);
    OneMessage(Style("\n", " "), m, rest, clean);
    PassthroughIsEncode(eventType, payload);
    assert Join([payload], "\n") == payload;
    hide Scan, Plain, Encode, Passthrough;
  }

  lemma PassthroughIsEncode(eventType: string, payload: string)
    ensures Passthrough(eventType, payload) == Encode(Style("\n", " "), Message(eventType, [payload]))
  {
    var style := Style("\n", " ");
    assert EncodeLines(style, [payload]) == ("data:" + " " + payload + "\n") + EncodeLines(style, []);
    assert "event: " == "event:" + " " && "data: " == "data:" + " " && "\n\n" == "\n" + "\n";
  }
}
