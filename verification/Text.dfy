/** Strings as the services handle them: white space trimmed, parts joined. */
module Text {
  /** The white space of Unicode. */
  predicate IsSpace(c: char) {
    var x := c as int;
    || 9 <= x <= 13 || x == 32 || x == 0x85 || x == 0xA0 || x == 0x1680
    || 0x2000 <= x <= 0x200A || x == 0x2028 || x == 0x2029 || x == 0x202F || x == 0x205F || x == 0x3000
  }

  function Trim(s: string): string
    decreases |s|
  {
    if s == "" then ""
    else if IsSpace(s[0]) then Trim(s[1..])
    else if IsSpace(s[|s| - 1]) then Trim(s[..|s| - 1])
    else s
  }

  function Join(parts: seq<string>, separator: string): string
    decreases |parts|
  {
    if parts == [] then ""
    else if |parts| == 1 then parts[0]
    else parts[0] + separator + Join(parts[1..], separator)
  }

  /** Parts that all say something join to something. */
  lemma {:induction false} JoinSaysSomething(parts: seq<string>, separator: string)
    requires forall p :: p in parts ==> p != ""
    ensures Join(parts, separator) != "" <==> parts != []
  {
    if parts != [] {
      assert parts[0] in parts;
    }
  }

  /* ----- What trimming and joining mean ----- */

  /** The code points of Unicode's White_Space property. */
  predicate White(c: char) {
    c as int in {9, 10, 11, 12, 13, 32, 133, 160, 5760, 8192, 8193, 8194, 8195, 8196, 8197, 8198, 8199, 8200, 8201,
                 8202, 8232, 8233, 8239, 8287, 12288}
  }

  predicate Blank(s: string) {
    forall i :: 0 <= i < |s| ==> White(s[i])
  }

  /** A text with no white space at either end. */
  predicate Tight(s: string) {
    s != "" ==> !White(s[0]) && !White(s[|s| - 1])
  }

  lemma SpaceIsWhite()
    ensures forall c :: IsSpace(c) <==> White(c)
  {
  }

  /** Trimming takes white space off both ends, and all of it. */
  lemma {:induction false} TrimExactly(s: string) returns (left: string, right: string)
    ensures s == left + Trim(s) + right && Blank(left) && Blank(right) && Tight(Trim(s))
    decreases |s|
  {
    SpaceIsWhite();
    hide IsSpace, White;
    left, right := "", "";
    if s != "" && IsSpace(s[0]) {
      left, right := TrimExactly(s[1..]);
      left := [s[0]] + left;
    } else if s != "" && IsSpace(s[|s| - 1]) {
      left, right := TrimExactly(s[..|s| - 1]);
      right := right + [s[|s| - 1]];
    }
  }

  lemma TrimmedOnce(s: string)
    ensures Trim(Trim(s)) == Trim(s)
  {
    var _, _ := TrimExactly(s);
    TrimOf("", Trim(s), "");
    assert "" + Trim(s) + "" == Trim(s);
  }

  /** White space around a text that has none at its ends is all that trimming takes away. */
  lemma {:induction false} TrimOf(left: string, s: string, right: string)
    requires Blank(left) && Blank(right) && Tight(s)
    ensures Trim(left + s + right) == s
    decreases |left| + |right|
  {
    SpaceIsWhite();
    hide IsSpace, White;
    var all := left + s + right;
    if left != "" {
      assert all[1..] == left[1..] + s + right;
      TrimOf(left[1..], s, right);
    } else if s == "" && right != "" {
      assert all[1..] == left + s + right[1..];
      TrimOf(left, s, right[1..]);
    } else if right != "" {
      assert all[..|all| - 1] == left + s + right[..|right| - 1];
      assert all[0] == s[0];
      TrimOf(left, s, right[..|right| - 1]);
    } else {
      assert all == s;
    }
  }

  /** The parts of a text between its line feeds. */
  function Lines(s: string): seq<string>
    decreases |s|
  {
    if s == "" then [""]
    else if s[0] == '\n' then [""] + Lines(s[1..])
    else var rest := Lines(s[1..]); if rest == [] then [s] else [[s[0]] + rest[0]] + rest[1..]
  }

  lemma {:induction false} FirstLine(line: string, rest: string)
    requires '\n' !in line
    ensures Lines(line) == [line] && Lines(line + "\n" + rest) == [line] + Lines(rest)
    decreases |line|
  {
    if line == "" {
      assert (line + "\n" + rest)[1..] == rest;
    } else {
      FirstLine(line[1..], rest);
      assert line == [line[0]] + line[1..];
      assert (line + "\n" + rest)[1..] == line[1..] + "\n" + rest;
      assert (line + "\n" + rest)[0] == line[0];
      assert line[0] in line;
    }
  }

  /** Joined by line feeds, lines can be told apart again: all of them, in order. */
  lemma {:induction false} JoinedLines(parts: seq<string>)
    requires parts != [] && forall p :: p in parts ==> '\n' !in p
    ensures Lines(Join(parts, "\n")) == parts
    decreases |parts|
  {
    assert parts[0] in parts;
    if |parts| == 1 {
      FirstLine(parts[0], "");
    } else {
      JoinedLines(parts[1..]);
      FirstLine(parts[0], Join(parts[1..], "\n"));
    }
  }

  /** Whatever the separator, one more part comes behind it. */
  lemma {:induction false} JoinOneMore(parts: seq<string>, last: string, separator: string)
    ensures Join([last], separator) == last
    ensures parts != [] ==> Join(parts + [last], separator) == Join(parts, separator) + separator + last
    decreases |parts|
  {
    if |parts| == 1 {
      assert (parts + [last])[1..] == [last];
    } else if parts != [] {
      JoinOneMore(parts[1..], last, separator);
      assert (parts + [last])[1..] == parts[1..] + [last];
      assert (parts + [last])[0] == parts[0];
    }
  }
}
