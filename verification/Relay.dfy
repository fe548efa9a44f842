/** The relay loops: how a provider's stream, however it ends, becomes a verdict, and how the
    verdict becomes a bill. */
module Relay {
  import opened Wrappers
  import opened EventStream
  import F = Frames
  import R = ResponsesAdapter
  import Charge
  import Ledger
  import Conservation
  import Settlement

  datatype Usage = Usage(inputTokens: int, outputTokens: int, latency: int)

  /** JSON decoding of payloads is a parameter. */
  datatype Decoder = Decoder(deltaText: Bytes -> Option<string>, usage: Bytes -> Option<Usage>)

  datatype Progress = Progress(usage: Usage, streamErr: bool, streamed: string)

  const NOTHING_YET := Progress(Usage(0, 0, 0), false, "")

  datatype Verdict = Stopped(usage: Usage, streamErr: bool, cancelled: bool) | Panicked

  /** A quarter of the text's length, rounded up. */
  function EstimateTokens(text: string): nat {
    (|text| + 3) / 4
  }

  function Ascii(s: string): Bytes {
    seq(|s|, i requires 0 <= i < |s| => (s[i] as int) % 256)
  }

  function Get(headers: Headers, name: string): Bytes {
    if Ascii(name) in headers then headers[Ascii(name)] else []
  }

  predicate IsException(frame: Frame) {
    Get(frame.headers, ":message-type") == Ascii("exception")
  }

  function EventType(frame: Frame): Bytes {
    if IsException(frame) then Ascii("error")
    else if Get(frame.headers, ":event-type") == [] then Ascii("message")
    else Get(frame.headers, ":event-type")
  }

  predicate IsCanceled(e: ReadError) {
    match e
    case Raw(cause) => cause == Canceled
    case TruncatedFrame(cause) => cause == Canceled
    case _ => false
  }

  function Finish(p: Progress, err: bool, abort: bool): Verdict {
    var usage := if p.usage.outputTokens == 0 && |p.streamed| > 0
                 then p.usage.(outputTokens := EstimateTokens(p.streamed)) else p.usage;
    Stopped(usage, err, abort && !err)
  }

  function OnReadError(p: Progress, e: ReadError): Verdict {
    if LooksLikeEof(e) then Finish(p, p.streamErr, false)
    else if p.streamErr then Finish(p, true, false)
    else if IsCanceled(e) then Finish(p, false, true)
    else Finish(p, true, false)
  }

  function OnWriteError(p: Progress, abort: bool): Verdict {
    if p.streamErr then Finish(p, true, false)
    else if abort then Finish(p, false, true)
    else Finish(p, true, false)
  }

  /** What a frame changes before the sink gets it. */
  function Before(dec: Decoder, p: Progress, frame: Frame): Progress {
    var p' := p.(streamErr := p.streamErr || IsException(frame));
    if EventType(frame) == Ascii("contentBlockDelta") && dec.deltaText(frame.payload).Some? then
      p'.(streamed := p'.streamed + dec.deltaText(frame.payload).value)
    else p'
  }

  /** What it changes after the sink took it. */
  function Behind(dec: Decoder, p: Progress, frame: Frame): Progress {
    if EventType(frame) == Ascii("metadata") && dec.usage(frame.payload).Some? then
      p.(usage := dec.usage(frame.payload).value)
    else p
  }

  /** The relay of decoded frames, and of how their stream ended, to a sink that takes a number of
      frames and then fails, as a client that hung up or otherwise. */
  function RelayFrames(dec: Decoder, frames: seq<Frame>, end: Read, room: nat, abort: bool, p: Progress): Verdict
    decreases |frames|
  {
    if frames == [] then (if end.Fail? then OnReadError(p, end.error) else Panicked)
    else if room == 0 then OnWriteError(Before(dec, p, frames[0]), abort)
    else RelayFrames(dec, frames[1..], end, room - 1, abort, Behind(dec, Before(dec, p, frames[0]), frames[0]))
  }

  function Relay(crc: Checksum, dec: Decoder, r: Bytes, ending: Cause, room: nat, abort: bool): Verdict {
    RelayFrames(dec, ReadAll(crc, r, ending).0, ReadAll(crc, r, ending).1, room, abort, NOTHING_YET)
  }

  method RelayBedrockStream(crc: Checksum, dec: Decoder, body: Bytes, ending: Cause, sinkRoom: nat, abort: bool)
    returns (v: Verdict)
    ensures v == Relay(crc, dec, body, ending, sinkRoom, abort)
  {
    hide *;
    var reader := new Reader(body, ending);
    var room := sinkRoom;
    var p := NOTHING_YET;
    RelayStarts(crc, dec, body, ending, sinkRoom, abort);
    ghost var (fs, end) := ReadAll(crc, body, ending);
    while true
      invariant reader.ending == ending && fresh(reader)
      invariant ReadAll(crc, reader.left, ending) == (fs, end)
      invariant RelayFrames(dec, fs, end, room, abort, p) == Relay(crc, dec, body, ending, sinkRoom, abort)
      decreases |reader.left|
    {
      ghost var before := reader.left;
      var read := reader.ReadAWSEventStreamFrame(crc);
      FirstFrame(crc, before, ending, fs, end);
      RelayUnfolds(dec, fs, end, room, abort, p);
      if read.Panic? {
        return Panicked;
      }
      if read.Fail? {
        v := StopReading(p, read.error);
        return;
      }
      p := Prepare(dec, p, read.frame);
      if room == 0 {
        v := StopWriting(p, abort);
        return;
      }
      room := room - 1;
      p := Account(dec, p, read.frame);
      fs := fs[1..];
    }
  }

  lemma RelayStarts(crc: Checksum, dec: Decoder, r: Bytes, ending: Cause, room: nat, abort: bool)
    ensures Relay(crc, dec, r, ending, room, abort)
            == RelayFrames(dec, ReadAll(crc, r, ending).0, ReadAll(crc, r, ending).1, room, abort, NOTHING_YET)
  {
    hide ReadAll;
  }

  lemma FirstFrame(crc: Checksum, r: Bytes, ending: Cause, fs: seq<Frame>, end: Read)
    requires ReadAll(crc, r, ending) == (fs, end)
    ensures var read := ReadFrame(crc, r, ending);
            && (read.Got? ==> fs != [] && fs[0] == read.frame && ReadAll(crc, read.rest, ending) == (fs[1..], end))
            && (!read.Got? ==> fs == [] && end == read)
  {
    ReadAllUnfolds(crc, r, ending, ReadFrame(crc, r, ending));
    hide ReadFrame;
  }

  lemma RelayUnfolds(dec: Decoder, fs: seq<Frame>, end: Read, room: nat, abort: bool, p: Progress)
    ensures RelayFrames(dec, fs, end, room, abort, p)
            == if fs == [] then (if end.Fail? then OnReadError(p, end.error) else Panicked)
               else if room == 0 then OnWriteError(Before(dec, p, fs[0]), abort)
               else RelayFrames(dec, fs[1..], end, room - 1, abort, Behind(dec, Before(dec, p, fs[0]), fs[0]))
  {
  }

  lemma ReadAllUnfolds(crc: Checksum, r: Bytes, ending: Cause, read: Read)
    requires read == ReadFrame(crc, r, ending)
    ensures read.Got? ==> |read.rest| < |r|
    ensures ReadAll(crc, r, ending)
            == if read.Got? then ([read.frame] + ReadAll(crc, read.rest, ending).0, ReadAll(crc, read.rest, ending).1)
               else ([], read)
  {
  }

  method StopReading(p: Progress, e: ReadError) returns (v: Verdict)
    ensures v == OnReadError(p, e)
  {
    if LooksLikeEof(e) {
      return Finish(p, p.streamErr, false);
    }
    if p.streamErr {
      return Finish(p, true, false);
    }
    if IsCanceled(e) {
      return Finish(p, false, true);
    }
    return Finish(p, true, false);
  }

  method StopWriting(p: Progress, abort: bool) returns (v: Verdict)
    ensures v == OnWriteError(p, abort)
  {
    if p.streamErr {
      return Finish(p, true, false);
    }
    if abort {
      return Finish(p, false, true);
    }
    return Finish(p, true, false);
  }

  method Prepare(dec: Decoder, p: Progress, frame: Frame) returns (p': Progress)
    ensures p' == Before(dec, p, frame)
  {
    p' := p;
    if IsException(frame) {
      p' := p'.(streamErr := true);
    }
    if EventType(frame) == Ascii("contentBlockDelta") && dec.deltaText(frame.payload).Some? {
      p' := p'.(streamed := p'.streamed + dec.deltaText(frame.payload).value);
    }
  }

  method Account(dec: Decoder, p: Progress, frame: Frame) returns (p': Progress)
    ensures p' == Behind(dec, p, frame)
  {
    p' := p;
    if EventType(frame) == Ascii("metadata") && dec.usage(frame.payload).Some? {
      p' := p'.(usage := dec.usage(frame.payload).value);
    }
  }

  /* ----- The verdict, exactly ----- */

  predicate HasException(frames: seq<Frame>) {
    exists f :: f in frames && IsException(f)
  }

  /** The frames decoded before the stream or the sink gives out; the one the sink refuses is
      decoded. */
  function Decoded(frames: seq<Frame>, room: nat): seq<Frame> {
    if |frames| <= room then frames else frames[..room + 1]
  }

  lemma StepKeepsFailure(dec: Decoder, p: Progress, frame: Frame)
    ensures Behind(dec, Before(dec, p, frame), frame).streamErr == (p.streamErr || IsException(frame))
    ensures Before(dec, p, frame).streamErr == (p.streamErr || IsException(frame))
  {
  }

  /** The verdict is a failure exactly if an exception frame was decoded, or the sink failed other
      than by a client hanging up, or the stream broke other than by its end or a cancellation;
      a cancellation is never also a failure. */
  lemma {:induction false} VerdictExactly(dec: Decoder, frames: seq<Frame>, end: Read, room: nat, abort: bool,
          p: Progress)
    requires end.Fail?
    ensures var v := RelayFrames(dec, frames, end, room, abort, p);
            && v.Stopped?
            && (v.streamErr <==>
                || p.streamErr || HasException(Decoded(frames, room))
                || (if room < |frames| then !abort else !LooksLikeEof(end.error) && !IsCanceled(end.error)))
            && (v.cancelled <==>
                && !v.streamErr
                && (if room < |frames| then abort else IsCanceled(end.error)))
    decreases |frames|
  {
    if frames != [] {
      StepKeepsFailure(dec, p, frames[0]);
      if room == 0 {
        assert Decoded(frames, room) == [frames[0]];
      } else {
        VerdictExactly(dec, frames[1..], end, room - 1, abort, Behind(dec, Before(dec, p, frames[0]), frames[0]));
        assert Decoded(frames, room) == [frames[0]] + Decoded(frames[1..], room - 1);
      }
    }
  }

  /** Once an exception frame is decoded, however the rest goes, the verdict is a failure and
      never a cancellation. */
  lemma ExceptionSticks(dec: Decoder, frames: seq<Frame>, end: Read, room: nat, abort: bool)
    requires !end.Got? && HasException(Decoded(frames, room))
    ensures var v := RelayFrames(dec, frames, end, room, abort, NOTHING_YET);
            v.Panicked? || (v.streamErr && !v.cancelled)
  {
    if end.Fail? {
      VerdictExactly(dec, frames, end, room, abort, NOTHING_YET);
    } else {
      PanicOrFailure(dec, frames, end, room, abort, NOTHING_YET);
    }
  }

  /** The same for any byte stream. */
  lemma ExceptionSticksInBytes(crc: Checksum, dec: Decoder, r: Bytes, ending: Cause, room: nat, abort: bool)
    requires HasException(Decoded(ReadAll(crc, r, ending).0, room))
    ensures var v := Relay(crc, dec, r, ending, room, abort);
            v.Panicked? || (v.streamErr && !v.cancelled)
  {
    var (frames, end) := ReadAll(crc, r, ending);
    EndIsNoFrame(crc, r, ending);
    ExceptionSticks(dec, frames, end, room, abort);
    hide ReadAll, RelayFrames;
  }

  lemma {:induction false} EndIsNoFrame(crc: Checksum, r: Bytes, ending: Cause)
    ensures !ReadAll(crc, r, ending).1.Got?
    decreases |r|
  {
    var read := ReadFrame(crc, r, ending);
    ReadAllUnfolds(crc, r, ending, read);
    if read.Got? {
      EndIsNoFrame(crc, read.rest, ending);
    }
  }

  lemma {:induction false} PanicOrFailure(dec: Decoder, frames: seq<Frame>, end: Read, room: nat, abort: bool,
          p: Progress)
    requires end.Panic? && (p.streamErr || HasException(Decoded(frames, room)))
    ensures var v := RelayFrames(dec, frames, end, room, abort, p);
            v.Panicked? || (v.streamErr && !v.cancelled)
    decreases |frames|
  {
    if frames != [] {
      StepKeepsFailure(dec, p, frames[0]);
      if room == 0 {
        assert Decoded(frames, room) == [frames[0]];
      } else {
        assert Decoded(frames, room) == [frames[0]] + Decoded(frames[1..], room - 1);
        PanicOrFailure(dec, frames[1..], end, room - 1, abort, Behind(dec, Before(dec, p, frames[0]), frames[0]));
      }
    }
  }

  /* ----- What the verdict says was used ----- */

  function UsageIn(dec: Decoder, frame: Frame): Option<Usage> {
    if EventType(frame) == Ascii("metadata") then dec.usage(frame.payload) else None
  }

  function TextIn(dec: Decoder, frame: Frame): string {
    if EventType(frame) == Ascii("contentBlockDelta") && dec.deltaText(frame.payload).Some?
    then dec.deltaText(frame.payload).value else ""
  }

  /** The latest usage among the frames that reached the client. */
  function LatestUsage(dec: Decoder, frames: seq<Frame>, before: Usage): Usage
    decreases |frames|
  {
    if frames == [] then before
    else
      var n := |frames| - 1;
      if UsageIn(dec, frames[n]).Some? then UsageIn(dec, frames[n]).value else LatestUsage(dec, frames[..n], before)
  }

  function AllText(dec: Decoder, frames: seq<Frame>): string
    decreases |frames|
  {
    if frames == [] then "" else TextIn(dec, frames[0]) + AllText(dec, frames[1..])
  }

  function Delivered(frames: seq<Frame>, room: nat): seq<Frame> {
    if |frames| <= room then frames else frames[..room]
  }

  /** A frame's usage counts unless a later one follows. */
  lemma {:induction false} LatestUsageFirst(dec: Decoder, frame: Frame, rest: seq<Frame>, before: Usage)
    ensures LatestUsage(dec, [frame] + rest, before)
            == LatestUsage(dec, rest, if UsageIn(dec, frame).Some? then UsageIn(dec, frame).value else before)
    decreases |rest|
  {
    hide UsageIn;
    var all := [frame] + rest;
    if rest == [] {
      assert all[..0] == [];
    } else {
      LatestUsageFirst(dec, frame, rest[..|rest| - 1], before);
      assert all[..|all| - 1] == [frame] + rest[..|rest| - 1];
    }
  }

  function Reported(usage: Usage, text: string): Usage {
    if usage.outputTokens == 0 && text != "" then usage.(outputTokens := EstimateTokens(text)) else usage
  }

  lemma FrameProgress(dec: Decoder, p: Progress, frame: Frame)
    ensures Before(dec, p, frame).streamed == p.streamed + TextIn(dec, frame) && Before(dec, p, frame).usage == p.usage
    ensures Behind(dec, p, frame).streamed == p.streamed
    ensures Behind(dec, p, frame).usage == if UsageIn(dec, frame).Some? then UsageIn(dec, frame).value else p.usage
  {
    assert p.streamed + "" == p.streamed;
  }

  /** Where the relay stops at once. */
  lemma StopReports(dec: Decoder, frames: seq<Frame>, end: Read, room: nat, abort: bool, p: Progress)
    requires end.Fail? && (frames == [] || room == 0)
    ensures var v := RelayFrames(dec, frames, end, room, abort, p);
            && v.Stopped?
            && v.usage == Reported(LatestUsage(dec, Delivered(frames, room), p.usage), p.streamed + AllText(dec, Decoded(frames, room)))
  {
    assert p.streamed + "" == p.streamed;
    if frames != [] {
      FrameProgress(dec, p, frames[0]);
      OneText(dec, frames[0]);
      assert Decoded(frames, room) == [frames[0]] && Delivered(frames, room) == [];
    }
    hide Before, Behind, UsageIn, TextIn, AllText;
  }

  lemma GoesOn(dec: Decoder, frame: Frame, rest: seq<Frame>, room: nat, p: Progress)
    requires room > 0
    ensures var p' := Behind(dec, Before(dec, p, frame), frame);
            && LatestUsage(dec, Delivered([frame] + rest, room), p.usage) == LatestUsage(dec, Delivered(rest, room - 1), p'.usage)
            && p.streamed + AllText(dec, Decoded([frame] + rest, room)) == p'.streamed + AllText(dec, Decoded(rest, room - 1))
  {
    hide *;
    FrameProgress(dec, p, frame);
    FrameProgress(dec, Before(dec, p, frame), frame);
    FirstOf(frame, rest, room);
    FirstText(dec, frame, Decoded(rest, room - 1));
    LatestUsageFirst(dec, frame, Delivered(rest, room - 1), p.usage);
    Regroup(p.streamed, TextIn(dec, frame), AllText(dec, Decoded(rest, room - 1)));
  }

  lemma FirstOf(frame: Frame, rest: seq<Frame>, room: nat)
    requires room > 0
    ensures Decoded([frame] + rest, room) == [frame] + Decoded(rest, room - 1)
    ensures Delivered([frame] + rest, room) == [frame] + Delivered(rest, room - 1)
  {
  }

  lemma Regroup(a: string, b: string, c: string)
    ensures a + (b + c) == (a + b) + c
  {
  }

  /** However the relay stops, it reports the latest usage that reached the client, or an estimate
      of the output from all the text decoded if that usage counts no output. */
  lemma {:induction false} UsageExactly(dec: Decoder, frames: seq<Frame>, end: Read, room: nat, abort: bool,
          p: Progress)
    requires end.Fail?
    ensures var v := RelayFrames(dec, frames, end, room, abort, p);
            && v.Stopped?
            && v.usage == Reported(LatestUsage(dec, Delivered(frames, room), p.usage), p.streamed + AllText(dec, Decoded(frames, room)))
    decreases |frames|
  {
    hide *;
    if frames == [] || room == 0 {
      StopReports(dec, frames, end, room, abort, p);
    } else {
      RelayUnfolds(dec, frames, end, room, abort, p);
      assert frames == [frames[0]] + frames[1..];
      GoesOn(dec, frames[0], frames[1..], room, p);
      UsageExactly(dec, frames[1..], end, room - 1, abort, Behind(dec, Before(dec, p, frames[0]), frames[0]));
    }
  }

  lemma FirstText(dec: Decoder, frame: Frame, rest: seq<Frame>)
    ensures AllText(dec, [frame] + rest) == TextIn(dec, frame) + AllText(dec, rest)
  {
    assert ([frame] + rest)[1..] == rest;
  }

  lemma OneText(dec: Decoder, frame: Frame)
    ensures AllText(dec, [frame]) == TextIn(dec, frame)
  {
    FirstText(dec, frame, []);
    assert [frame] + [] == [frame] && TextIn(dec, frame) + "" == TextIn(dec, frame);
  }

  /* ----- The verdict on a stream as it was sent ----- */

  /** A stream that stops inside a frame, with a client that takes everything, is judged a failure
      exactly if it carried an exception or does not stop right after that frame's prelude:
      stopping there passes for success. */
  lemma CutStreamVerdict(crc: Checksum, dec: Decoder, ms: seq<Message>, m: Message, cut: nat, room: nat, abort: bool)
    requires (forall x :: x in ms ==> WellFormed(x)) && WellFormed(m) && |ms| <= room
    requires 0 < cut < FrameLen(m)
    ensures |Encode(crc, m)| == FrameLen(m)
    ensures var v := Relay(crc, dec, EncodeAll(crc, ms) + Encode(crc, m)[..cut], Eof, room, abort);
            && v.Stopped? && !v.cancelled
            && (v.streamErr <==> HasException(ReceivedAll(ms)) || cut != PRELUDE_LEN)
  {
    var end := CutStreamEnds(crc, ms, m, cut);
    ReceivedLength(ms);
    VerdictExactly(dec, ReceivedAll(ms), end, room, abort, NOTHING_YET);
  }

  lemma CutStreamEnds(crc: Checksum, ms: seq<Message>, m: Message, cut: nat) returns (end: Read)
    requires (forall x :: x in ms ==> WellFormed(x)) && WellFormed(m)
    requires 0 < cut < FrameLen(m)
    ensures |Encode(crc, m)| == FrameLen(m)
    ensures ReadAll(crc, EncodeAll(crc, ms) + Encode(crc, m)[..cut], Eof) == (ReceivedAll(ms), end)
    ensures end.Fail? && !IsCanceled(end.error) && (LooksLikeEof(end.error) <==> cut == PRELUDE_LEN)
  {
    CutIsNoticedExactly(crc, m, cut);
    end := EndOfCut(crc, Encode(crc, m)[..cut], ms);
  }

  lemma EndOfCut(crc: Checksum, rest: Bytes, ms: seq<Message>) returns (end: Read)
    requires forall x :: x in ms ==> WellFormed(x)
    requires ReadFrame(crc, rest, Eof).Fail?
    ensures end == ReadFrame(crc, rest, Eof) && !IsCanceled(end.error)
    ensures ReadAll(crc, EncodeAll(crc, ms) + rest, Eof) == (ReceivedAll(ms), end)
  {
    end := ReadFrame(crc, rest, Eof);
    CutIsNotCanceled(crc, rest);
    ReadAllUnfolds(crc, rest, Eof, end);
    StreamRoundTrip(crc, ms, rest, [], end, Eof);
    assert ReceivedAll(ms) + [] == ReceivedAll(ms);
  }

  lemma {:induction false} ReceivedLength(ms: seq<Message>)
    ensures |ReceivedAll(ms)| == |ms|
    decreases |ms|
  {
    if ms != [] {
      ReceivedLength(ms[1..]);
    }
  }

  lemma CutIsNotCanceled(crc: Checksum, r: Bytes)
    ensures ReadFrame(crc, r, Eof).Fail? ==> !IsCanceled(ReadFrame(crc, r, Eof).error)
  {
  }

  /** A whole stream is judged a failure exactly if it carried an exception. */
  lemma WholeStreamVerdict(crc: Checksum, dec: Decoder, ms: seq<Message>, room: nat, abort: bool)
    requires (forall x :: x in ms ==> WellFormed(x)) && |ms| <= room
    ensures var v := Relay(crc, dec, EncodeAll(crc, ms), Eof, room, abort);
            && v.Stopped? && !v.cancelled
            && (v.streamErr <==> HasException(ReceivedAll(ms)))
  {
    WholeStreamIsClean(crc, ms);
    ReceivedLength(ms);
    VerdictExactly(dec, ReceivedAll(ms), Fail(Raw(Eof)), room, abort, NOTHING_YET);
  }

  /* ----- From the verdict to the bill ----- */

  function StatusCode(v: Verdict): int
    requires v.Stopped?
  {
    if v.streamErr then 502 else 200
  }

  /** The job of one streamed call: its status from the status code, the prompt's estimate for a
      cancelled call whose usage never came, and a charge only for a success. */
  function JobOf(v: Verdict, key: string, org: string, hold: string, prompt: string, inputPrice: int,
          outputPrice: int): Ledger.RecordParams
    requires v.Stopped?
  {
    var status := if StatusCode(v) < 200 || StatusCode(v) >= 300 then Ledger.Failure else Ledger.Success;
    var input := if v.cancelled && v.usage.inputTokens <= 0 then EstimateTokens(prompt) else v.usage.inputTokens;
    var amount := if status == Ledger.Success
                  then Charge.ChargeMicros(input, v.usage.outputTokens, inputPrice, outputPrice) else 0;
    Ledger.RecordParams(key, org, status, input, v.usage.outputTokens, amount, hold)
  }

  /** A call whose stream was judged a failure costs nothing: no usage row, no credits used, the open
      hold back in full. */
  lemma FailedVerdictIsFree(v: Verdict, db: Ledger.Db, key: string, org: string, hold: string, prompt: string,
                            inputPrice: int, outputPrice: int)
    requires v.Stopped? && v.streamErr
    requires Ledger.RecordTx(db, JobOf(v, key, org, hold, prompt, inputPrice, outputPrice)).Committed?
    ensures var p := JobOf(v, key, org, hold, prompt, inputPrice, outputPrice);
            var db' := Ledger.RecordTx(db, p).db;
            && db'.ledger == db.ledger
            && (forall o :: o in db.orgs && o in db'.orgs ==>
                  && db'.orgs[o].used == db.orgs[o].used
                  && db'.orgs[o].remaining == db.orgs[o].remaining + Conservation.Returned(db, p, o))
  {
    Settlement.FailureIsFree(db, JobOf(v, key, org, hold, prompt, inputPrice, outputPrice));
  }

  /** So a stream on which the provider raised an exception costs nothing, whatever it delivered,
      however it ended and however the client behaved. */
  lemma FailedStreamIsFree(dec: Decoder, frames: seq<Frame>, end: Read, room: nat, abort: bool, v: Verdict, db: Ledger.Db,
                           key: string, org: string, hold: string, prompt: string, inputPrice: int, outputPrice: int)
    requires !end.Got? && HasException(Decoded(frames, room))
    requires v == RelayFrames(dec, frames, end, room, abort, NOTHING_YET) && v.Stopped?
    requires Ledger.RecordTx(db, JobOf(v, key, org, hold, prompt, inputPrice, outputPrice)).Committed?
    ensures var p := JobOf(v, key, org, hold, prompt, inputPrice, outputPrice);
            var db' := Ledger.RecordTx(db, p).db;
            && db'.ledger == db.ledger
            && (forall o :: o in db.orgs && o in db'.orgs ==>
                  && db'.orgs[o].used == db.orgs[o].used
                  && db'.orgs[o].remaining == db.orgs[o].remaining + Conservation.Returned(db, p, o))
  {
    ExceptionSticks(dec, frames, end, room, abort);
    hide RelayFrames, HasException;
    FailedVerdictIsFree(v, db, key, org, hold, prompt, inputPrice, outputPrice);
  }

  /* ----- The relay of Responses events ----- */

  /** What the adapter has gathered when its feeding ends: whether a failure event was among those
      handled, whether a write failed, the usage and the text. */
  datatype Fed = Fed(failed: bool, broke: bool, usage: R.Usage, streamed: string)

  /** Feeding events to the adapter until one fails for want of room. */
  function Feed(st: R.State, events: seq<R.Event>, room: nat): Fed
    decreases |events|
  {
    if events == [] then Fed(st.failed, false, st.usage, st.streamed)
    else
      var (s, fs) := R.Step(st, events[0]);
      if |fs| > room then Fed(s.failed, true, s.usage, R.StreamedAfter(st, events[0], room))
      else Feed(s, events[1..], room - |fs|)
  }

  function ResponsesVerdict(fed: Fed, ending: Cause, abort: bool): Verdict {
    Stopped(Reported(Usage(fed.usage.inputTokens, fed.usage.outputTokens, 0), fed.streamed),
            fed.failed || if fed.broke then !abort else ending != Eof && ending != Canceled,
            !fed.failed && if fed.broke then abort else ending == Canceled)
  }

  method RelayResponsesStream(events: seq<R.Event>, ending: Cause, room: nat, abort: bool) returns (v: Verdict)
    ensures v == ResponsesVerdict(Feed(R.INITIAL, events, room), ending, abort)
  {
    hide R.Step, R.StreamedAfter;
    var sink := new F.TrackingSink(room);
    var adapter := new R.Adapter(sink);
    var i, ok := 0, true;
    while i < |events| && ok
      invariant 0 <= i <= |events|
      invariant adapter.sink == sink && fresh(sink) && fresh(adapter)
      invariant sink.writeErr == !ok
      invariant Feed(R.INITIAL, events, room)
                == if ok then Feed(adapter.Current(), events[i..], sink.room)
                   else Fed(adapter.failed, true, adapter.usage, adapter.streamed)
      decreases |events| - i
    {
      assert events[i..][1..] == events[i + 1..];
      ok := adapter.Handle(events[i]);
      i := i + 1;
    }
    var streamErr, cancelled := false, false;
    if adapter.failed {
      streamErr := true;
    } else if sink.writeErr {
      if abort {
        cancelled := true;
      } else {
        streamErr := true;
      }
    } else if ending != Eof {
      if ending == Canceled {
        cancelled := true;
      } else {
        streamErr := true;
      }
    }
    var inputTokens, outputTokens := adapter.usage.inputTokens, adapter.usage.outputTokens;
    if outputTokens == 0 && |adapter.streamed| > 0 {
      outputTokens := EstimateTokens(adapter.streamed);
    }
    if streamErr {
      cancelled := false;
    }
    v := Stopped(Usage(inputTokens, outputTokens, 0), streamErr, cancelled);
  }

  /** The text of a sequence of events. */
  function EventText(events: seq<R.Event>): string
    decreases |events|
  {
    if events == [] then "" else (if events[0].TextDelta? then events[0].text else "") + EventText(events[1..])
  }

  /** The usage that the latest completion among the events gives. */
  function EventUsage(events: seq<R.Event>, before: R.Usage): R.Usage
    decreases |events|
  {
    if events == [] then before
    else
      var n := |events| - 1;
      if events[n].Completed? && events[n].usage.Some? then events[n].usage.value else EventUsage(events[..n], before)
  }

  lemma {:induction false} EventUsageFirst(ev: R.Event, rest: seq<R.Event>, before: R.Usage)
    ensures EventUsage([ev] + rest, before)
            == EventUsage(rest, if ev.Completed? && ev.usage.Some? then ev.usage.value else before)
    decreases |rest|
  {
    var all := [ev] + rest;
    if rest == [] {
      assert all[..0] == [];
    } else {
      EventUsageFirst(ev, rest[..|rest| - 1], before);
      assert all[..|all| - 1] == [ev] + rest[..|rest| - 1];
    }
  }

  /** The first events have room, and if they are not all, the next one has not. */
  ghost predicate FitsExactly(st: R.State, events: seq<R.Event>, room: nat, n: nat) {
    && n <= |events|
    && |R.Run(st, events[..n]).1| <= room
    && (n < |events| ==> |R.Run(st, events[..n + 1]).1| > room)
  }

  lemma FitsLater(st: R.State, events: seq<R.Event>, room: nat, n: nat)
    requires events != [] && |R.Step(st, events[0]).1| <= room
    ensures var (s, fs) := R.Step(st, events[0]);
            FitsExactly(st, events, room, n + 1) <==> FitsExactly(s, events[1..], room - |fs|, n)
  {
    hide R.Step;
    if n < |events| {
      assert events[..n + 1][1..] == events[1..][..n];
    }
    if n + 1 < |events| {
      assert events[..n + 2][1..] == events[1..][..n + 1];
    }
  }

  lemma FitsNotAtAll(st: R.State, events: seq<R.Event>, room: nat, n: nat)
    requires events != [] && |R.Step(st, events[0]).1| > room && FitsExactly(st, events, room, n)
    ensures n == 0
  {
    hide R.Step;
  }

  /** There is such a number of events for every room. */
  lemma {:induction false} SomeFit(st: R.State, events: seq<R.Event>, room: nat) returns (n: nat)
    ensures FitsExactly(st, events, room, n)
    decreases |events|
  {
    n := 0;
    if events != [] {
      hide R.Step;
      var (s, fs) := R.Step(st, events[0]);
      if |fs| <= room {
        n := SomeFit(s, events[1..], room - |fs|);
        FitsLater(st, events, room, n);
        n := n + 1;
      } else {
        assert events[..1][1..] == [];
      }
    }
  }

  /** The events that were handled, the one that did not fit included. */
  function HandledOf(events: seq<R.Event>, n: nat): seq<R.Event>
    requires n <= |events|
  {
    if n < |events| then events[..n + 1] else events
  }

  /** The events whose text was remembered: not the one that found no room to start the message. */
  function RememberedOf(st: R.State, events: seq<R.Event>, room: nat, n: nat): seq<R.Event>
    requires n <= |events|
  {
    if n < |events| && !R.Run(st, events[..n]).0.started && |R.Run(st, events[..n]).1| == room then events[..n]
    else HandledOf(events, n)
  }

  lemma StepGathers(st: R.State, ev: R.Event)
    ensures var s := R.Step(st, ev).0;
            && (s.failed <==> st.failed || ev.Failed?)
            && s.usage == (if ev.Completed? && ev.usage.Some? then ev.usage.value else st.usage)
            && s.streamed == st.streamed + if ev.TextDelta? then ev.text else ""
  {
    assert st.streamed + "" == st.streamed;
    hide R.Ended;
  }

  lemma OneEventText(ev: R.Event)
    ensures EventText([ev]) == if ev.TextDelta? then ev.text else ""
  {
    assert [ev][1..] == [];
    assert EventText([]) == "";
  }

  ghost predicate GathersExactly(st: R.State, events: seq<R.Event>, room: nat, n: nat, fed: Fed)
    requires n <= |events|
  {
    && (fed.broke <==> n < |events|)
    && (fed.failed <==> st.failed || exists ev :: ev in HandledOf(events, n) && ev.Failed?)
    && fed.usage == EventUsage(HandledOf(events, n), st.usage)
    && fed.streamed == st.streamed + EventText(RememberedOf(st, events, room, n))
  }

  lemma FirstDoesNotFit(st: R.State, events: seq<R.Event>, room: nat)
    requires events != [] && |R.Step(st, events[0]).1| > room
    ensures GathersExactly(st, events, room, 0, Feed(st, events, room))
  {
    var ev := events[0];
    StepGathers(st, ev);
    OneEventText(ev);
    EventUsageFirst(ev, [], st.usage);
    assert events[..1] == [ev] && [ev] + [] == [ev] && events[..0] == [];
    assert st.streamed + "" == st.streamed;
    hide R.Ended, R.Remember;
  }

  lemma FirstFits(st: R.State, events: seq<R.Event>, room: nat, n: nat)
    requires events != [] && n < |events| && |R.Step(st, events[0]).1| <= room
    requires var (s, fs) := R.Step(st, events[0]);
             GathersExactly(s, events[1..], room - |fs|, n, Feed(s, events[1..], room - |fs|))
    ensures GathersExactly(st, events, room, n + 1, Feed(st, events, room))
  {
    var ev, rest := events[0], events[1..];
    var (s, fs) := R.Step(st, ev);
    StepGathers(st, ev);
    hide R.Step;
    assert HandledOf(events, n + 1) == [ev] + HandledOf(rest, n);
    EventUsageFirst(ev, HandledOf(rest, n), st.usage);
    RememberedLater(st, events, room, n);
    var text := if ev.TextDelta? then ev.text else "";
    Regroup(st.streamed, text, EventText(RememberedOf(s, rest, room - |fs|, n)));
    hide EventUsage, RememberedOf;
  }

  lemma RememberedLater(st: R.State, events: seq<R.Event>, room: nat, n: nat)
    requires events != [] && n < |events| && |R.Step(st, events[0]).1| <= room
    ensures var (s, fs) := R.Step(st, events[0]);
            var more := RememberedOf(s, events[1..], room - |fs|, n);
            && RememberedOf(st, events, room, n + 1) == [events[0]] + more
            && EventText(RememberedOf(st, events, room, n + 1))
               == (if events[0].TextDelta? then events[0].text else "") + EventText(more)
  {
    hide R.Step;
    var rest := events[1..];
    assert events[..n + 1] == [events[0]] + rest[..n];
    assert events[..n + 1][1..] == rest[..n];
    assert n + 1 < |events| ==> events[..n + 2] == [events[0]] + rest[..n + 1];
    var more := RememberedOf(R.Step(st, events[0]).0, rest, room - |R.Step(st, events[0]).1|, n);
    assert ([events[0]] + more)[1..] == more;
  }

  /** However much room the sink has: what the adapter has gathered when its feeding ends is told by
      the events handled. */
  lemma {:induction false} FedExactly(st: R.State, events: seq<R.Event>, room: nat, n: nat)
    requires FitsExactly(st, events, room, n)
    ensures GathersExactly(st, events, room, n, Feed(st, events, room))
    decreases |events|
  {
    hide R.Step, GathersExactly;
    if events == [] {
      NothingFed(st, room);
    } else {
      var (s, fs) := R.Step(st, events[0]);
      if |fs| > room {
        FitsNotAtAll(st, events, room, n);
        FirstDoesNotFit(st, events, room);
      } else {
        FirstIsCounted(st, events, room, n);
        FitsLater(st, events, room, n - 1);
        FedExactly(s, events[1..], room - |fs|, n - 1);
        FirstFits(st, events, room, n - 1);
      }
    }
  }

  lemma NothingFed(st: R.State, room: nat)
    ensures GathersExactly(st, [], room, 0, Feed(st, [], room))
  {
    assert st.streamed + "" == st.streamed;
  }

  lemma FirstIsCounted(st: R.State, events: seq<R.Event>, room: nat, n: nat)
    requires events != [] && |R.Step(st, events[0]).1| <= room && FitsExactly(st, events, room, n)
    ensures n > 0
  {
    hide R.Step;
    assert events[..1][1..] == [];
    var (s, fs) := R.Step(st, events[0]);
    assert R.Run(st, events[..1]).1 == fs + R.Run(s, []).1;
  }

  /** The verdict on a Responses stream: a failure exactly if a failure event was handled, or the
      sink failed other than by a hang-up, or the stream broke other than by its end or a
      cancellation; never also a cancellation; with the usage of the latest completion handled, or
      an estimate from the text remembered if that counts no output. */
  lemma ResponsesVerdictExactly(events: seq<R.Event>, ending: Cause, room: nat, abort: bool, n: nat)
    requires FitsExactly(R.INITIAL, events, room, n)
    ensures var v := ResponsesVerdict(Feed(R.INITIAL, events, room), ending, abort);
            var usage := EventUsage(HandledOf(events, n), R.Usage(0, 0));
            && v.Stopped?
            && (v.streamErr <==>
                || (exists ev :: ev in HandledOf(events, n) && ev.Failed?)
                || (if n < |events| then !abort else ending != Eof && ending != Canceled))
            && (v.cancelled <==> !v.streamErr && (if n < |events| then abort else ending == Canceled))
            && v.usage == Reported(Usage(usage.inputTokens, usage.outputTokens, 0),
                                   EventText(RememberedOf(R.INITIAL, events, room, n)))
  {
    FedExactly(R.INITIAL, events, room, n);
    hide Feed, EventUsage, RememberedOf, Reported;
    assert "" + EventText(RememberedOf(R.INITIAL, events, room, n)) == EventText(RememberedOf(R.INITIAL, events, room, n));
  }

  lemma {:induction false} FailedStays(st: R.State, events: seq<R.Event>, room: nat)
    requires st.failed
    ensures Feed(st, events, room).failed
    decreases |events|
  {
    if events != [] {
      var (s, fs) := R.Step(st, events[0]);
      assert s.failed;
      if |fs| <= room {
        FailedStays(s, events[1..], room - |fs|);
      }
    }
  }

  lemma {:induction false} FailureIsFed(st: R.State, events: seq<R.Event>, room: nat, at: nat)
    requires at < |events| && events[at].Failed? && |R.Run(st, events[..at]).1| <= room
    ensures Feed(st, events, room).failed
    decreases |events|
  {
    var (s, fs) := R.Step(st, events[0]);
    if at == 0 {
      if |fs| <= room {
        FailedStays(s, events[1..], room - |fs|);
      }
    } else {
      assert events[..at][1..] == events[1..][..at - 1];
      FailureIsFed(s, events[1..], room - |fs|, at - 1);
    }
  }

  /** A failure event that is reached while everything before it could be written makes the
      verdict a failure and not a cancellation, even if reporting it to the client is what fails,
      and the call is free. */
  lemma FailureEventSticks(events: seq<R.Event>, ending: Cause, room: nat, abort: bool, at: nat, v: Verdict,
                           db: Ledger.Db, key: string, org: string, hold: string, prompt: string, inputPrice: int, outputPrice: int)
    requires at < |events| && events[at].Failed? && |R.Run(R.INITIAL, events[..at]).1| <= room
    requires v == ResponsesVerdict(Feed(R.INITIAL, events, room), ending, abort)
    requires Ledger.RecordTx(db, JobOf(v, key, org, hold, prompt, inputPrice, outputPrice)).Committed?
    ensures v.streamErr && !v.cancelled
    ensures var p := JobOf(v, key, org, hold, prompt, inputPrice, outputPrice);
            var db' := Ledger.RecordTx(db, p).db;
            && db'.ledger == db.ledger
            && (forall o :: o in db.orgs && o in db'.orgs ==>
                  && db'.orgs[o].used == db.orgs[o].used
                  && db'.orgs[o].remaining == db.orgs[o].remaining + Conservation.Returned(db, p, o))
  {
    FailureIsFed(R.INITIAL, events, room, at);
    hide Feed, R.Run;
    FailedVerdictIsFree(v, db, key, org, hold, prompt, inputPrice, outputPrice);
  }
}
