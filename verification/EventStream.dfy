/** The binary event-stream framing: one frame at a time from a byte stream. */
module EventStream {
  import opened Wrappers

  type Byte = x: int | 0 <= x < 256

  type Bytes = seq<Byte>

  type Word = x: int | 0 <= x < 0x1_0000_0000

  /** The checksum is a parameter: nothing below depends on how it is computed. */
  type Checksum = Bytes -> Word

  const PRELUDE_LEN := 12
  const TRAILER_LEN := 4
  const MAX_FRAME_LEN := 1_048_576

  type Headers = map<Bytes, Bytes>

  datatype Frame = Frame(headers: Headers, payload: Bytes)

  /* ----- Big-endian integers ----- */

  function U16(b: Bytes): (n: int)
    requires |b| == 2
    ensures 0 <= n < 0x1_0000
  {
    (b[0] as int) * 0x100 + b[1] as int
  }

  function U32(b: Bytes): (n: Word)
    requires |b| == 4
  {
    U16(b[..2]) * 0x1_0000 + U16(b[2..])
  }

  function PutU16(n: int): (b: Bytes)
    requires 0 <= n < 0x1_0000
    ensures |b| == 2 && U16(b) == n
  {
    [n / 0x100, n % 0x100]
  }

  function PutU32(n: Word): (b: Bytes)
    ensures |b| == 4 && U32(b) == n
  {
    var high, low := PutU16(n / 0x1_0000), PutU16(n % 0x1_0000);
    assert (high + low)[..2] == high && (high + low)[2..] == low;
    high + low
  }

  /* ----- Headers ----- */

  datatype HeaderError = Truncated | UnknownType(tag: Byte)

  const TRUE_TEXT: Bytes := [116, 114, 117, 101]
  const FALSE_TEXT: Bytes := [102, 97, 108, 115, 101]

  /** How many bytes a value of a fixed-size type takes. */
  function FixedSize(tag: Byte): Option<nat> {
    match tag
    case 2 => Some(1)
    case 3 => Some(2)
    case 4 => Some(4)
    case 5 => Some(8)
    case 8 => Some(8)
    case 9 => Some(16)
    case _ => None
  }

  function ValueOf(name: Bytes, tag: Byte, rest: Bytes, headers: Headers): (r: Result<(Headers, Bytes), HeaderError>)
    ensures r.Ok? ==> |r.value.1| <= |rest|
  {
    if tag == 0 || tag == 1 then Ok((headers[name := if tag == 0 then TRUE_TEXT else FALSE_TEXT], rest))
    else if FixedSize(tag).Some? then
      if |rest| < FixedSize(tag).value then Err(Truncated) else Ok((headers, rest[FixedSize(tag).value..]))
    else if tag == 6 || tag == 7 then
      if |rest| < 2 then Err(Truncated)
      else
        var valLen := U16(rest[..2]);
        if |rest| - 2 < valLen then Err(Truncated)
        else Ok((if tag == 7 then headers[name := rest[2..2 + valLen]] else headers, rest[2 + valLen..]))
    else Err(UnknownType(tag))
  }

  /** One name/type/value triple: what it adds to the headers, and the bytes after it. */
  function ParseHeader(b: Bytes, headers: Headers): (r: Result<(Headers, Bytes), HeaderError>)
    requires |b| > 0
    ensures r.Ok? ==> |r.value.1| < |b|
  {
    var nameLen := b[0] as int;
    if |b| - 1 < nameLen + 1 then Err(Truncated)
    else
      ValueOf(b[1..1 + nameLen], b[1 + nameLen], b[2 + nameLen..], headers)
  }

  function ParseHeaders(b: Bytes, headers: Headers): Result<Headers, HeaderError>
    decreases |b|
  {
    if b == [] then Ok(headers)
    else
      match ParseHeader(b, headers)
      case Err(e) => Err(e)
      case Ok((headers', rest)) => ParseHeaders(rest, headers')
  }

  /** The loop that advances through the header block. */
  method ParseEventStreamHeaders(block: Bytes) returns (r: Result<Headers, HeaderError>)
    ensures r == ParseHeaders(block, map[])
  {
    var b := block;
    var headers: Headers := map[];
    while |b| > 0
      invariant ParseHeaders(block, map[]) == ParseHeaders(b, headers)
      decreases |b|
    {
      var nameLen := b[0] as int;
      if |b| - 1 < nameLen + 1 {
        return Err(Truncated);
      }
      var name, tag := b[1..1 + nameLen], b[1 + nameLen];
      var value := ParseValue(name, tag, b[2 + nameLen..], headers);
      if value.Err? {
        return Err(value.error);
      }
      assert ParseHeader(b, headers) == value;
      headers, b := value.value.0, value.value.1;
    }
    r := Ok(headers);
  }

  method ParseValue(name: Bytes, tag: Byte, rest: Bytes,
          headers: Headers) returns (r: Result<(Headers, Bytes), HeaderError>)
    ensures r == ValueOf(name, tag, rest, headers)
  {
    var b := rest;
    if tag == 0 || tag == 1 {
      return Ok((headers[name := if tag == 0 then TRUE_TEXT else FALSE_TEXT], b));
    }
    if FixedSize(tag).Some? {
      if |b| < FixedSize(tag).value {
        return Err(Truncated);
      }
      b := b[FixedSize(tag).value..];
      return Ok((headers, b));
    }
    if tag == 6 || tag == 7 {
      if |b| < 2 {
        return Err(Truncated);
      }
      var valLen := U16(b[..2]);
      b := b[2..];
      if |b| < valLen {
        return Err(Truncated);
      }
      assert b[..valLen] == rest[2..2 + valLen] && b[valLen..] == rest[2 + valLen..];
      return Ok((if tag == 7 then headers[name := b[..valLen]] else headers, b[valLen..]));
    }
    return Err(UnknownType(tag));
  }

  /** A header as its sender means it; only bools and strings are kept by the receiver. */
  datatype Value =
    | Bool(value: bool)
    | Fixed(tag: Byte, bytes: Bytes)
    | ByteArray(bytes: Bytes)
    | Text(bytes: Bytes)

  datatype Header = Header(name: Bytes, value: Value)

  predicate Sendable(h: Header) {
    && |h.name| < 256
    && match h.value
       case Bool(_) => true
       case Fixed(tag, bytes) =>
         || (tag == 2 && |bytes| == 1) || (tag == 3 && |bytes| == 2) || (tag == 4 && |bytes| == 4)
         || ((tag == 5 || tag == 8) && |bytes| == 8) || (tag == 9 && |bytes| == 16)
       case ByteArray(bytes) => |bytes| < 0x1_0000
       case Text(bytes) => |bytes| < 0x1_0000
  }

  function EncodeValue(v: Value): Bytes
    requires match v case ByteArray(b) => |b| < 0x1_0000 case Text(b) => |b| < 0x1_0000 case _ => true
  {
    match v
    case Bool(value) => [if value then 0 else 1]
    case Fixed(tag, bytes) => [tag] + bytes
    case ByteArray(bytes) => [6] + PutU16(|bytes|) + bytes
    case Text(bytes) => [7] + PutU16(|bytes|) + bytes
  }

  function EncodeHeader(h: Header): Bytes
    requires Sendable(h)
  {
    [|h.name|] + h.name + EncodeValue(h.value)
  }

  function EncodeHeaders(hs: seq<Header>): Bytes
    requires forall h :: h in hs ==> Sendable(h)
  {
    if hs == [] then [] else EncodeHeader(hs[0]) + EncodeHeaders(hs[1..])
  }

  function Keep(headers: Headers, h: Header): Headers {
    match h.value
    case Bool(true) => headers[h.name := [116, 114, 117, 101]]
    case Bool(false) => headers[h.name := [102, 97, 108, 115, 101]]
    case Text(bytes) => headers[h.name := bytes]
    case _ => headers
  }

  /** The headers a receiver ends up with: later ones win. */
  function KeepAll(headers: Headers, hs: seq<Header>): Headers
    decreases |hs|
  {
    if hs == [] then headers else KeepAll(Keep(headers, hs[0]), hs[1..])
  }

  lemma HeaderRoundTrip(h: Header, rest: Bytes, headers: Headers)
    requires Sendable(h)
    ensures EncodeHeader(h) + rest != []
    ensures ParseHeader(EncodeHeader(h) + rest, headers) == Ok((Keep(headers, h), rest))
  {
    var b := EncodeHeader(h) + rest;
    var n := |h.name|;
    var value := EncodeValue(h.value);
    assert b == [n] + h.name + value + rest;
    assert b[1..1 + n] == h.name;
    assert b[1 + n] == value[0];
    assert b[2 + n..] == value[1..] + rest;
    ValueRoundTrip(h, rest, b[2 + n..], headers);
  }

  lemma ValueRoundTrip(h: Header, rest: Bytes, tail: Bytes, headers: Headers)
    requires Sendable(h) && tail == EncodeValue(h.value)[1..] + rest
    ensures match h.value
            case Bool(_) => tail == rest
            case Fixed(tag, bytes) => |tail| >= |bytes| && tail[|bytes|..] == rest
            case ByteArray(bytes) => |tail| >= 2 && U16(tail[..2]) == |bytes| <= |tail| - 2 && tail[2 + |bytes|..] == rest
            case Text(bytes) => |tail| >= 2 && U16(tail[..2]) == |bytes| <= |tail| - 2 && tail[2..2 + |bytes|] == bytes && tail[2 + |bytes|..] == rest
  {
    match h.value
    case Bool(_) =>
    case Fixed(tag, bytes) => assert tail == bytes + rest;
    case ByteArray(bytes) => assert tail == PutU16(|bytes|) + bytes + rest; assert tail[..2] == PutU16(|bytes|);
    case Text(bytes) => assert tail == PutU16(|bytes|) + bytes + rest; assert tail[..2] == PutU16(|bytes|);
  }

  /** Whatever types the headers have, the block is read to its end without losing step. */
  lemma {:induction false} HeadersRoundTrip(hs: seq<Header>, headers: Headers)
    requires forall h :: h in hs ==> Sendable(h)
    ensures ParseHeaders(EncodeHeaders(hs), headers) == Ok(KeepAll(headers, hs))
    decreases |hs|
  {
    if hs != [] {
      HeaderRoundTrip(hs[0], EncodeHeaders(hs[1..]), headers);
      HeadersRoundTrip(hs[1..], Keep(headers, hs[0]));
    }
  }

  /** The number that four bytes are on the wire, the most significant first. */
  function WordAt(r: Bytes, at: nat): int
    requires at + 4 <= |r|
  {
    16_777_216 * (r[at] as int) + 65_536 * (r[at + 1] as int) + 256 * (r[at + 2] as int) + r[at + 3] as int
  }

  lemma BigEndian(r: Bytes, at: nat)
    requires at + 4 <= |r|
    ensures U32(r[at..at + 4]) == WordAt(r, at)
  {
    assert r[at..at + 4][..2] == [r[at], r[at + 1]] && r[at..at + 4][2..] == [r[at + 2], r[at + 3]];
  }

  /** Headers byte by byte: the length of the name, the name, the type, and the value: none for a bool,
      a length in two bytes and as many bytes for a string. The receiver keeps exactly these. */
  lemma TextHeaderOnWire(name: Bytes, value: Bytes, rest: Bytes, headers: Headers)
    requires |name| < 256 && |value| < 0x1_0000
    ensures ParseHeaders([|name|] + name + [7, |value| / 256, |value| % 256] + value + rest, headers)
            == ParseHeaders(rest, headers[name := value])
  {
    var h := Header(name, Text(value));
    HeaderRoundTrip(h, rest, headers);
    assert EncodeHeader(h) == [|name|] + name + [7, |value| / 256, |value| % 256] + value by {
      assert EncodeValue(Text(value)) == [7] + [|value| / 256, |value| % 256] + value;
    }
  }

  lemma BoolHeaderOnWire(name: Bytes, value: bool, rest: Bytes, headers: Headers)
    requires |name| < 256
    ensures ParseHeaders([|name|] + name + [if value then 0 else 1] + rest, headers)
            == ParseHeaders(rest, headers[name := if value then [116, 114, 117, 101] else [102, 97, 108, 115, 101]])
  {
    var h := Header(name, Bool(value));
    HeaderRoundTrip(h, rest, headers);
    assert EncodeHeader(h) == [|name|] + name + [if value then 0 else 1];
  }

  /** A header's value cannot be read exactly if its type is none of the ten, or bytes are missing. */
  lemma UnreadableExactly(name: Bytes, tag: Byte, rest: Bytes, headers: Headers)
    ensures ValueOf(name, tag, rest, headers) == Err(UnknownType(tag)) <==> tag > 9
    ensures ValueOf(name, tag, rest, headers) == Err(Truncated)
            <==> || (tag == 2 && |rest| < 1) || (tag == 3 && |rest| < 2) || (tag == 4 && |rest| < 4)
                 || ((tag == 5 || tag == 8) && |rest| < 8) || (tag == 9 && |rest| < 16)
                 || ((tag == 6 || tag == 7) && (|rest| < 2 || |rest| - 2 < 256 * (rest[0] as int) + rest[1] as int))
  {
  }

  /* ----- Frames ----- */

  /** Why a reader gave no more bytes. */
  datatype Cause = Eof | UnexpectedEof | Canceled | Broken

  datatype ReadError =
    | Raw(cause: Cause)                // between frames
    | TruncatedPrelude
    | TruncatedFrame(cause: Cause)     // the cause is wrapped
    | CrcMismatch
    | InvalidLengths
    | TooLong
    | BadHeaders(error: HeaderError)

  /** The outcome of reading one frame; slicing out of range stops the program. */
  datatype Read = Got(frame: Frame, rest: Bytes) | Fail(error: ReadError) | Panic

  /** What asking for a positive number of bytes reports when only some are left and the source
      then ends: an end of file after some bytes is unexpected, before any it is not. */
  function ShortRead(available: nat, ending: Cause): Cause {
    if ending == Eof && available > 0 then UnexpectedEof else ending
  }

  function ReadFrame(crc: Checksum, r: Bytes, ending: Cause): Read {
    if |r| < PRELUDE_LEN then
      Fail(if ShortRead(|r|, ending) == UnexpectedEof then TruncatedPrelude else Raw(ShortRead(|r|, ending)))
    else
      var totalLen, headersLen := U32(r[0..4]), U32(r[4..8]);
      if crc(r[0..8]) != U32(r[8..12]) then Fail(CrcMismatch)
      else if totalLen < PRELUDE_LEN + TRAILER_LEN || headersLen > totalLen then Fail(InvalidLengths)
      else if totalLen > MAX_FRAME_LEN then Fail(TooLong)
      else if |r| < totalLen then Fail(TruncatedFrame(ShortRead(|r| - PRELUDE_LEN, ending)))
      else
        var payloadEnd := totalLen - TRAILER_LEN;
        if PRELUDE_LEN + headersLen > payloadEnd then Panic
        else if crc(r[..payloadEnd]) != U32(r[payloadEnd..totalLen]) then Fail(CrcMismatch)
        else
          match ParseHeaders(r[PRELUDE_LEN..PRELUDE_LEN + headersLen], map[])
          case Err(e) => Fail(BadHeaders(e))
          case Ok(headers) => Got(Frame(headers, r[PRELUDE_LEN + headersLen..payloadEnd]), r[totalLen..])
  }

  /** A reader that hands out its bytes in order. */
  class Reader {
    const ending: Cause
    var left: Bytes

    constructor (body: Bytes, ending: Cause)
      ensures left == body && this.ending == ending
    {
      left, this.ending := body, ending;
    }

    /** All the bytes asked for, or the cause why there are not enough: then none are left. */
    method ReadFull(n: nat) returns (r: Result<Bytes, Cause>)
      requires n > 0
      modifies this
      ensures if n <= |old(left)| then r == Ok(old(left)[..n]) && left == old(left)[n..]
              else r == Err(if ending == Eof && old(left) != [] then UnexpectedEof else ending) && left == []
    {
      if |left| < n {
        r := Err(ShortRead(|left|, ending));
        left := [];
      } else {
        r := Ok(left[..n]);
        left := left[n..];
      }
    }

    /** Reads exactly one frame off the front. */
    method ReadAWSEventStreamFrame(crc: Checksum) returns (read: Read)
      modifies this
      ensures read == ReadFrame(crc, old(left), ending)
      ensures read.Got? ==> left == read.rest && |left| < |old(left)|
    {
      ghost var r := left;
      var prelude := ReadFull(PRELUDE_LEN);
      if prelude.Err? {
        return Fail(if prelude.error == UnexpectedEof then TruncatedPrelude else Raw(prelude.error));
      }
      var totalLen, headersLen, seal := U32(prelude.value[0..4]), U32(prelude.value[4..8]), U32(prelude.value[8..12]);
      SamePrelude(r, prelude.value);
      if crc(prelude.value[0..8]) != seal {
        return Fail(CrcMismatch);
      }
      if totalLen < PRELUDE_LEN + TRAILER_LEN || headersLen > totalLen {
        return Fail(InvalidLengths);
      }
      if totalLen > MAX_FRAME_LEN {
        return Fail(TooLong);
      }
      var rest := ReadFull(totalLen - PRELUDE_LEN);
      if rest.Err? {
        return Fail(TruncatedFrame(rest.error));
      }
      SameBody(r, prelude.value, rest.value, totalLen);
      hide ReadFrame, U32;
      read := OpenFrame(crc, prelude.value, rest.value, headersLen, left);
      BodyIsRead(crc, r, prelude.value, rest.value, left, ending);
    }
  }

  /** The rest of a frame behind its prelude: header block, payload and checksum. */
  method OpenFrame(crc: Checksum, prelude: Bytes, rest: Bytes, headersLen: nat, left: Bytes) returns (read: Read)
    requires |rest| >= TRAILER_LEN
    ensures read == Opened(crc, prelude, rest, headersLen, left)
  {
    var payloadEnd := |rest| - TRAILER_LEN;
    if headersLen > payloadEnd {
      return Panic;
    }
    var headerBytes, payload := rest[..headersLen], rest[headersLen..payloadEnd];
    var full := prelude + rest;
    assert full[..|full| - TRAILER_LEN] == prelude + rest[..payloadEnd];
    if crc(full[..|full| - TRAILER_LEN]) != U32(rest[payloadEnd..]) {
      return Fail(CrcMismatch);
    }
    var headers := ParseEventStreamHeaders(headerBytes);
    if headers.Err? {
      return Fail(BadHeaders(headers.error));
    }
    read := Got(Frame(headers.value, payload), left);
  }

  function Opened(crc: Checksum, prelude: Bytes, rest: Bytes, headersLen: nat, left: Bytes): Read
    requires |rest| >= TRAILER_LEN
  {
    var payloadEnd := |rest| - TRAILER_LEN;
    if headersLen > payloadEnd then Panic
    else if crc(prelude + rest[..payloadEnd]) != U32(rest[payloadEnd..]) then Fail(CrcMismatch)
    else
      match ParseHeaders(rest[..headersLen], map[])
      case Err(e) => Fail(BadHeaders(e))
      case Ok(headers) => Got(Frame(headers, rest[headersLen..payloadEnd]), left)
  }

  lemma SamePrelude(r: Bytes, prelude: Bytes)
    requires |r| >= PRELUDE_LEN && prelude == r[..PRELUDE_LEN]
    ensures prelude[0..4] == r[0..4] && prelude[4..8] == r[4..8] && prelude[8..12] == r[8..12] && prelude[0..8] == r[0..8]
  {
  }

  lemma SameBody(r: Bytes, prelude: Bytes, rest: Bytes, total: nat)
    requires PRELUDE_LEN + TRAILER_LEN <= total <= |r| && prelude == r[..PRELUDE_LEN] && rest == r[PRELUDE_LEN..][..total - PRELUDE_LEN]
    ensures rest == r[PRELUDE_LEN..total] && prelude + rest == r[..total] && r[PRELUDE_LEN..][total - PRELUDE_LEN..] == r[total..]
  {
  }

  lemma BodyIsRead(crc: Checksum, r: Bytes, prelude: Bytes, rest: Bytes, left: Bytes, ending: Cause)
    requires PreludeAccepted(crc, r) && |r| >= U32(r[0..4])
    requires prelude == r[..PRELUDE_LEN] && rest == r[PRELUDE_LEN..U32(r[0..4])] && left == r[U32(r[0..4])..]
    ensures ReadFrame(crc, r, ending) == Opened(crc, prelude, rest, U32(r[4..8]), left)
  {
    hide ParseHeaders, U32;
    BodySlices(r, prelude, rest, U32(r[0..4]), U32(r[4..8]));
  }

  lemma BodySlices(r: Bytes, prelude: Bytes, rest: Bytes, total: nat, headersLen: nat)
    requires PRELUDE_LEN + TRAILER_LEN <= total <= |r|
    requires prelude == r[..PRELUDE_LEN] && rest == r[PRELUDE_LEN..total]
    ensures prelude + rest[..|rest| - TRAILER_LEN] == r[..total - TRAILER_LEN]
    ensures rest[|rest| - TRAILER_LEN..] == r[total - TRAILER_LEN..total]
    ensures headersLen <= |rest| - TRAILER_LEN ==>
              && rest[..headersLen] == r[PRELUDE_LEN..PRELUDE_LEN + headersLen]
              && rest[headersLen..|rest| - TRAILER_LEN] == r[PRELUDE_LEN + headersLen..total - TRAILER_LEN]
  {
  }

  /** The prelude passes every check that the reader makes of it. */
  predicate PreludeAccepted(crc: Checksum, r: Bytes) {
    && |r| >= PRELUDE_LEN
    && crc(r[0..8]) == U32(r[8..12])
    && PRELUDE_LEN + TRAILER_LEN <= U32(r[0..4]) <= MAX_FRAME_LEN
    && U32(r[4..8]) <= U32(r[0..4])
  }

  /** The length guard admits header lengths that do not leave room for the prelude and the
      trailer: a complete frame stops the program exactly for those. */
  lemma PanicsExactly(crc: Checksum, r: Bytes, ending: Cause)
    requires PreludeAccepted(crc, r) && |r| >= U32(r[0..4])
    ensures ReadFrame(crc, r, ending) == Panic <==> U32(r[4..8]) > U32(r[0..4]) - (PRELUDE_LEN + TRAILER_LEN)
  {
  }

  /** A frame is read if and only if, in the bytes' own terms, its twelve bytes of prelude are there and
      carry the right checksum, its length is between 16 bytes and a mebibyte and leaves room for
      its header block, all of it is there, its own checksum is right and its header block is
      readable. */
  lemma ReadExactly(crc: Checksum, r: Bytes, ending: Cause)
    ensures ReadFrame(crc, r, ending).Got?
            <==> && |r| >= 12
                 && var total, header := WordAt(r, 0), WordAt(r, 4);
                    && 16 <= total <= 1_048_576 && header <= total - 16 && total <= |r|
                    && crc(r[..8]) == WordAt(r, 8)
                    && crc(r[..total - 4]) == WordAt(r, total - 4)
                    && ParseHeaders(r[12..12 + header], map[]).Ok?
  {
    WordsAt(r);
    hide U32, ParseHeaders, WordAt;
  }

  /** What is read is then the header block, the payload and the bytes behind the frame. */
  lemma ReadsWhat(crc: Checksum, r: Bytes, ending: Cause)
    requires ReadFrame(crc, r, ending).Got?
    ensures |r| >= 12
    ensures var read, total, header := ReadFrame(crc, r, ending), WordAt(r, 0), WordAt(r, 4);
            && 12 <= 12 + header <= total - 4 < total <= |r|
            && read.frame.payload == r[12 + header..total - 4] && read.rest == r[total..]
            && ParseHeaders(r[12..12 + header], map[]) == Ok(read.frame.headers)
  {
    WordsAt(r);
    hide U32, ParseHeaders, WordAt;
  }

  lemma WordsAt(r: Bytes)
    ensures |r| >= 12 ==>
              && U32(r[0..4]) == WordAt(r, 0) && U32(r[4..8]) == WordAt(r, 4) && U32(r[8..12]) == WordAt(r, 8)
              && r[0..8] == r[..8]
              && (16 <= WordAt(r, 0) <= |r| ==> U32(r[WordAt(r, 0) - 4..WordAt(r, 0)]) == WordAt(r, WordAt(r, 0) - 4))
  {
    if |r| >= 12 {
      BigEndian(r, 0);
      BigEndian(r, 4);
      BigEndian(r, 8);
      var total := U32(r[0..4]);
      if 16 <= total <= |r| {
        BigEndian(r, total - 4);
      }
    }
    hide U32, WordAt;
  }

  /** The smallest frame, without headers or payload, but with a header length that does not fit. */
  function Overlong(crc: Checksum, headersLen: Word): Bytes {
    var lengths := PutU32(PRELUDE_LEN + TRAILER_LEN) + PutU32(headersLen);
    var prelude := lengths + PutU32(crc(lengths));
    prelude + PutU32(crc(prelude))
  }

  /** Whatever the checksum: a complete frame of 16 bytes whose checksums are right and whose header
      length is between 1 and 16 passes the prelude's checks and stops the program. */
  lemma OverlongStopsProgram(crc: Checksum, headersLen: Word, ending: Cause)
    requires 1 <= headersLen <= 16
    ensures var r := Overlong(crc, headersLen);
            && |r| == U32(r[0..4]) == 16 && U32(r[4..8]) == headersLen
            && PreludeAccepted(crc, r)
            && crc(r[..12]) == U32(r[12..16])
            && ReadFrame(crc, r, ending) == Panic
  {
    var total, header := PutU32(16), PutU32(headersLen);
    var seal := PutU32(crc(total + header));
    var trailer := PutU32(crc(total + header + seal));
    var r := Overlong(crc, headersLen);
    assert r == total + header + seal + [] + [] + trailer + [] by {
      assert total + header + seal + [] + [] == total + header + seal;
    }
    hide U32, PutU32, Overlong;
    Slices(r, total, header, seal, [], [], trailer, [], 16);
    assert total + header + seal + [] + [] == total + header + seal;
    PanicsExactly(crc, r, ending);
    hide ReadFrame;
  }

  /* ----- Sending ----- */

  datatype Message = Message(headers: seq<Header>, payload: Bytes)

  predicate WellFormed(m: Message) {
    && (forall h :: h in m.headers ==> Sendable(h))
    && |EncodeHeaders(m.headers)| + |m.payload| <= 1_048_560
  }

  function FrameLen(m: Message): nat
    requires WellFormed(m)
  {
    PRELUDE_LEN + |EncodeHeaders(m.headers)| + |m.payload| + TRAILER_LEN
  }

  function Lengths(m: Message): Bytes
    requires WellFormed(m)
  {
    PutU32(FrameLen(m)) + PutU32(|EncodeHeaders(m.headers)|)
  }

  function Unsealed(crc: Checksum, m: Message): Bytes
    requires WellFormed(m)
  {
    Lengths(m) + PutU32(crc(Lengths(m))) + EncodeHeaders(m.headers) + m.payload
  }

  function Encode(crc: Checksum, m: Message): Bytes
    requires WellFormed(m)
  {
    Unsealed(crc, m) + PutU32(crc(Unsealed(crc, m)))
  }

  function Received(m: Message): Frame {
    Frame(KeepAll(map[], m.headers), m.payload)
  }

  lemma Slices(r: Bytes, total: Bytes, header: Bytes, seal: Bytes, h: Bytes, p: Bytes, trailer: Bytes,
          rest: Bytes, n: int)
    requires |total| == |header| == |seal| == |trailer| == 4
    requires r == total + header + seal + h + p + trailer + rest && n == PRELUDE_LEN + |h| + |p| + TRAILER_LEN
    ensures n <= |r|
    ensures r[0..4] == total && r[4..8] == header && r[0..8] == total + header && r[8..12] == seal
    ensures r[PRELUDE_LEN..PRELUDE_LEN + |h|] == h && r[PRELUDE_LEN + |h|..n - TRAILER_LEN] == p
    ensures r[..n - TRAILER_LEN] == total + header + seal + h + p
    ensures r[n - TRAILER_LEN..n] == trailer && r[n..] == rest
  {
    assert r[12..12 + |h|] == h;
    assert r[12 + |h|..n - 4] == p;
    assert r[..n - 4] == total + header + seal + h + p;
  }

  /** A buffer that begins with a sound frame: its lengths, checksums, headers and payload. */
  ghost predicate Sound(crc: Checksum, r: Bytes, total: int, headersLen: int, headers: Headers, payload: Bytes,
          rest: Bytes) {
    && 0 <= headersLen && PRELUDE_LEN + headersLen + TRAILER_LEN <= total <= |r| && total <= MAX_FRAME_LEN
    && U32(r[0..4]) == total
    && U32(r[4..8]) == headersLen
    && U32(r[8..12]) == crc(r[0..8])
    && U32(r[total - TRAILER_LEN..total]) == crc(r[..total - TRAILER_LEN])
    && ParseHeaders(r[PRELUDE_LEN..PRELUDE_LEN + headersLen], map[]) == Ok(headers)
    && r[PRELUDE_LEN + headersLen..total - TRAILER_LEN] == payload
    && r[total..] == rest
  }

  lemma SoundIsRead(crc: Checksum, r: Bytes, total: int, headersLen: int, headers: Headers, payload: Bytes,
          rest: Bytes, ending: Cause)
    requires Sound(crc, r, total, headersLen, headers, payload, rest)
    ensures ReadFrame(crc, r, ending) == Got(Frame(headers, payload), rest)
  {
  }

  lemma LaidOutIsSound(crc: Checksum, r: Bytes, total: Bytes, header: Bytes, seal: Bytes, h: Bytes, p: Bytes,
          trailer: Bytes, rest: Bytes, headers: Headers)
    requires |total| == |header| == |seal| == |trailer| == 4
    requires r == total + header + seal + h + p + trailer + rest
    requires U32(total) == PRELUDE_LEN + |h| + |p| + TRAILER_LEN <= MAX_FRAME_LEN && U32(header) == |h|
    requires U32(seal) == crc(total + header) && U32(trailer) == crc(total + header + seal + h + p)
    requires ParseHeaders(h, map[]) == Ok(headers)
    ensures Sound(crc, r, U32(total), |h|, headers, p, rest)
  {
    hide *;
    Slices(r, total, header, seal, h, p, trailer, rest, U32(total));
    SlicesAreSound(crc, r, U32(total), h, headers, p, rest);
  }

  lemma SlicesAreSound(crc: Checksum, r: Bytes, n: int, h: Bytes, headers: Headers, p: Bytes, rest: Bytes)
    requires n == PRELUDE_LEN + |h| + |p| + TRAILER_LEN && n <= |r| && n <= MAX_FRAME_LEN
    requires U32(r[0..4]) == n && U32(r[4..8]) == |h| && U32(r[8..12]) == crc(r[0..8])
    requires U32(r[n - TRAILER_LEN..n]) == crc(r[..n - TRAILER_LEN])
    requires r[PRELUDE_LEN..PRELUDE_LEN + |h|] == h && r[PRELUDE_LEN + |h|..n - TRAILER_LEN] == p && r[n..] == rest
    requires ParseHeaders(h, map[]) == Ok(headers)
    ensures Sound(crc, r, n, |h|, headers, p, rest)
  {
    hide U32, ParseHeaders;
  }

  lemma SentIsSound(crc: Checksum, m: Message, rest: Bytes)
    requires WellFormed(m)
    ensures |Encode(crc, m)| == FrameLen(m)
    ensures Sound(crc, Encode(crc, m) + rest, FrameLen(m), |EncodeHeaders(m.headers)|, KeepAll(map[], m.headers), m.payload, rest)
  {
    var h := EncodeHeaders(m.headers);
    var total, header, seal := PutU32(FrameLen(m)), PutU32(|h|), PutU32(crc(Lengths(m)));
    var trailer := PutU32(crc(Unsealed(crc, m)));
    HeadersRoundTrip(m.headers, map[]);
    Layout(crc, m, rest);
    hide U32, EncodeHeaders, ParseHeaders, KeepAll, Encode, PutU32, Unsealed, Sound, Lengths;
    LaidOutIsSound(crc, Encode(crc, m) + rest, total, header, seal, h, m.payload, trailer, rest, KeepAll(map[], m.headers));
  }

  lemma Layout(crc: Checksum, m: Message, rest: Bytes)
    requires WellFormed(m)
    ensures var h := EncodeHeaders(m.headers);
            var total, header, seal := PutU32(FrameLen(m)), PutU32(|h|), PutU32(crc(Lengths(m)));
            && Lengths(m) == total + header
            && Unsealed(crc, m) == total + header + seal + h + m.payload
            && |Encode(crc, m)| == FrameLen(m)
            && Encode(crc, m) + rest == total + header + seal + h + m.payload + PutU32(crc(Unsealed(crc, m))) + rest
  {
    hide EncodeHeaders, U32;
  }

  lemma FrameRoundTrip(crc: Checksum, m: Message, rest: Bytes, ending: Cause)
    requires WellFormed(m)
    ensures ReadFrame(crc, Encode(crc, m) + rest, ending) == Got(Received(m), rest)
  {
    SentIsSound(crc, m, rest);
    SoundIsRead(crc, Encode(crc, m) + rest, FrameLen(m), |EncodeHeaders(m.headers)|,
                KeepAll(map[], m.headers), m.payload, rest, ending);
  }

  /** All frames of a stream, and how it ended. */
  function ReadAll(crc: Checksum, r: Bytes, ending: Cause): (seq<Frame>, Read)
    decreases |r|
  {
    match ReadFrame(crc, r, ending)
    case Got(frame, rest) => var (fs, end) := ReadAll(crc, rest, ending); ([frame] + fs, end)
    case other => ([], other)
  }

  lemma OneMore(crc: Checksum, m: Message, rest: Bytes, fs: seq<Frame>, end: Read, ending: Cause)
    requires WellFormed(m) && ReadAll(crc, rest, ending) == (fs, end)
    ensures ReadAll(crc, Encode(crc, m) + rest, ending) == ([Received(m)] + fs, end)
  {
    FrameRoundTrip(crc, m, rest, ending);
    OneMoreRead(crc, Encode(crc, m) + rest, Received(m), rest, fs, end, ending);
  }

  lemma OneMoreRead(crc: Checksum, r: Bytes, frame: Frame, rest: Bytes, fs: seq<Frame>, end: Read, ending: Cause)
    requires ReadFrame(crc, r, ending) == Got(frame, rest) && ReadAll(crc, rest, ending) == (fs, end)
    ensures ReadAll(crc, r, ending) == ([frame] + fs, end)
  {
  }

  function EncodeAll(crc: Checksum, ms: seq<Message>): Bytes
    requires forall m :: m in ms ==> WellFormed(m)
  {
    if ms == [] then [] else Encode(crc, ms[0]) + EncodeAll(crc, ms[1..])
  }

  function ReceivedAll(ms: seq<Message>): seq<Frame> {
    if ms == [] then [] else [Received(ms[0])] + ReceivedAll(ms[1..])
  }

  /** Decoding what was sent gives the frames back in order, and then exactly what follows. */
  lemma {:induction false} StreamRoundTrip(crc: Checksum, ms: seq<Message>, rest: Bytes, fs: seq<Frame>,
          end: Read, ending: Cause)
    requires (forall m :: m in ms ==> WellFormed(m)) && ReadAll(crc, rest, ending) == (fs, end)
    ensures ReadAll(crc, EncodeAll(crc, ms) + rest, ending) == (ReceivedAll(ms) + fs, end)
    decreases |ms|
  {
    hide ReadFrame, ReadAll, Encode, Received, WellFormed;
    if ms == [] {
      assert EncodeAll(crc, ms) + rest == rest;
      assert ReceivedAll(ms) + fs == fs;
    } else {
      var tail := EncodeAll(crc, ms[1..]) + rest;
      StreamRoundTrip(crc, ms[1..], rest, fs, end, ending);
      OneMore(crc, ms[0], tail, ReceivedAll(ms[1..]) + fs, end, ending);
      assert EncodeAll(crc, ms) + rest == Encode(crc, ms[0]) + tail;
      assert ReceivedAll(ms) + fs == [Received(ms[0])] + (ReceivedAll(ms[1..]) + fs);
    }
  }

  lemma NothingLeft(crc: Checksum)
    ensures ReadAll(crc, [], Eof) == ([], Fail(Raw(Eof)))
  {
  }

  /** A whole stream decodes to its frames and a clean end. */
  lemma WholeStreamIsClean(crc: Checksum, ms: seq<Message>)
    requires forall m :: m in ms ==> WellFormed(m)
    ensures ReadAll(crc, EncodeAll(crc, ms), Eof) == (ReceivedAll(ms), Fail(Raw(Eof)))
  {
    NothingLeft(crc);
    StreamRoundTrip(crc, ms, [], [], Fail(Raw(Eof)), Eof);
    assert EncodeAll(crc, ms) + [] == EncodeAll(crc, ms);
    assert ReceivedAll(ms) + [] == ReceivedAll(ms);
  }

  /* ----- Cut-off streams ----- */

  /** Whether an error is, or wraps, the end of file: the reader's loop takes it for a clean end. */
  predicate LooksLikeEof(e: ReadError) {
    match e
    case Raw(cause) => cause == Eof
    case TruncatedFrame(cause) => cause == Eof
    case _ => false
  }

  /** A stream cut off inside a frame is reported as truncated at every position but one: cut
      right after the prelude, it looks like a clean end although the frame is missing. */
  lemma CutIsNoticedExactly(crc: Checksum, m: Message, cut: nat)
    requires WellFormed(m) && 0 < cut < FrameLen(m)
    ensures |Encode(crc, m)| == FrameLen(m)
    ensures var r := ReadFrame(crc, Encode(crc, m)[..cut], Eof);
            r.Fail? && (LooksLikeEof(r.error) <==> cut == PRELUDE_LEN)
  {
    SentIsSound(crc, m, []);
    assert Encode(crc, m) + [] == Encode(crc, m);
    CutSound(crc, Encode(crc, m), FrameLen(m), |EncodeHeaders(m.headers)|, KeepAll(map[], m.headers), m.payload, cut);
  }

  /** The empty frame, cut after its prelude: twelve of its sixteen bytes arrive, and the reader
      reports what its loop takes for a clean end. */
  lemma CutAfterPreludeIsMissed(crc: Checksum)
    ensures var m := Message([], []);
            && WellFormed(m) && |Encode(crc, m)| == 16
            && ReadFrame(crc, Encode(crc, m)[..12], Eof).Fail?
            && LooksLikeEof(ReadFrame(crc, Encode(crc, m)[..12], Eof).error)
  {
    CutIsNoticedExactly(crc, Message([], []), 12);
    hide ReadFrame, Encode;
  }

  lemma CutSound(crc: Checksum, r: Bytes, total: int, headersLen: int, headers: Headers, payload: Bytes, cut: nat)
    requires Sound(crc, r, total, headersLen, headers, payload, []) && 0 < cut < total
    ensures var short := ReadFrame(crc, r[..cut], Eof);
            short.Fail? && (LooksLikeEof(short.error) <==> cut == PRELUDE_LEN)
  {
    var short := r[..cut];
    if cut >= PRELUDE_LEN {
      assert short[0..4] == r[0..4] && short[4..8] == r[4..8];
      assert short[0..8] == r[0..8] && short[8..12] == r[8..12];
    }
  }

  /** A stream that breaks off inside a frame other than by its end is reported with its cause. */
  lemma BreakIsReported(crc: Checksum, m: Message, cut: nat, ending: Cause)
    requires WellFormed(m) && cut < FrameLen(m) && (ending == Canceled || ending == Broken)
    ensures |Encode(crc, m)| == FrameLen(m)
    ensures ReadFrame(crc, Encode(crc, m)[..cut], ending) == Fail(if cut < 12 then Raw(ending) else TruncatedFrame(ending))
  {
    SentIsSound(crc, m, []);
    assert Encode(crc, m) + [] == Encode(crc, m);
    BreakSound(crc, Encode(crc, m), FrameLen(m), |EncodeHeaders(m.headers)|, KeepAll(map[], m.headers), m.payload, cut, ending);
  }

  lemma BreakSound(crc: Checksum, r: Bytes, total: int, headersLen: int, headers: Headers, payload: Bytes, cut: nat,
                   ending: Cause)
    requires Sound(crc, r, total, headersLen, headers, payload, []) && cut < total
    requires ending == Canceled || ending == Broken
    ensures ReadFrame(crc, r[..cut], ending) == Fail(if cut < 12 then Raw(ending) else TruncatedFrame(ending))
  {
    var short := r[..cut];
    if cut >= PRELUDE_LEN {
      assert short[0..4] == r[0..4] && short[4..8] == r[4..8];
      assert short[0..8] == r[0..8] && short[8..12] == r[8..12];
    }
    hide U32, ParseHeaders;
  }
}
