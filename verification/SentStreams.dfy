/** The relay's verdict and the bill, told from the messages that the provider sends, header by header and
    byte by byte. */
module SentStreams {
  import opened Wrappers
  import opened EventStream
  import opened Relay
  import Charge
  import Ledger
  import Conservation
  import Recording

  /* ----- What a message says about itself ----- */

  /** ":message-type" and "exception", ":event-type", "contentBlockDelta" and "metadata". */
  const MESSAGE_TYPE: Bytes := [58, 109, 101, 115, 115, 97, 103, 101, 45, 116, 121, 112, 101]
  const EXCEPTION: Bytes := [101, 120, 99, 101, 112, 116, 105, 111, 110]
  const EVENT_TYPE: Bytes := [58, 101, 118, 101, 110, 116, 45, 116, 121, 112, 101]
  const DELTA: Bytes := [99, 111, 110, 116, 101, 110, 116, 66, 108, 111, 99, 107, 68, 101, 108, 116, 97]
  const METADATA: Bytes := [109, 101, 116, 97, 100, 97, 116, 97]

  predicate IsKept(h: Header, name: Bytes) {
    h.name == name && (h.value.Bool? || h.value.Text?)
  }

  /** The last string or bool header of that name is this text. */
  predicate Says(hs: seq<Header>, name: Bytes, text: Bytes) {
    exists i :: 0 <= i < |hs| && hs[i] == Header(name, Text(text)) && forall j :: i < j < |hs| ==> !IsKept(hs[j], name)
  }

  lemma {:induction false} KeepLast(headers: Headers, hs: seq<Header>, h: Header)
    ensures KeepAll(headers, hs + [h]) == Keep(KeepAll(headers, hs), h)
    decreases |hs|
  {
    hide Keep;
    if hs == [] {
      assert hs + [h] == [h] && [h][1..] == [];
      assert KeepAll(headers, [h]) == KeepAll(Keep(headers, h), []);
    } else {
      KeepLast(Keep(headers, hs[0]), hs[1..], h);
      assert (hs + [h])[1..] == hs[1..] + [h];
    }
  }

  lemma SaysLast(hs: seq<Header>, h: Header, name: Bytes, text: Bytes)
    ensures Says(hs + [h], name, text) <==> h == Header(name, Text(text)) || (!IsKept(h, name) && Says(hs, name, text))
  {
    var all := hs + [h];
    if Says(all, name, text) {
      var i :| 0 <= i < |all| && all[i] == Header(name, Text(text)) && forall j :: i < j < |all| ==> !IsKept(all[j], name);
      if i < |hs| {
        assert !IsKept(all[|hs|], name);
        assert hs[i] == Header(name, Text(text)) && forall j :: i < j < |hs| ==> !IsKept(hs[j], name) by {
          assert forall j :: i < j < |hs| ==> hs[j] == all[j];
        }
      }
    }
    if h == Header(name, Text(text)) {
      assert all[|hs|] == h;
    }
    if !IsKept(h, name) && Says(hs, name, text) {
      var i :| 0 <= i < |hs| && hs[i] == Header(name, Text(text)) && forall j :: i < j < |hs| ==> !IsKept(hs[j], name);
      assert all[i] == hs[i] && forall j :: i < j < |all| ==> !IsKept(all[j], name);
    }
  }

  /** What a receiver has under a name is what the headers say, unless that is how a bool is written. */
  lemma {:induction false} KeptIsSaid(hs: seq<Header>, name: Bytes, text: Bytes)
    requires text != [116, 114, 117, 101] && text != [102, 97, 108, 115, 101]
    ensures (name in KeepAll(map[], hs) && KeepAll(map[], hs)[name] == text) <==> Says(hs, name, text)
    decreases |hs|
  {
    if hs != [] {
      var n := |hs| - 1;
      KeptIsSaid(hs[..n], name, text);
      KeepLast(map[], hs[..n], hs[n]);
      SaysLast(hs[..n], hs[n], name, text);
      assert hs[..n] + [hs[n]] == hs;
    }
    hide Says;
  }

  /** The provider raises an exception with this message. */
  predicate Raised(m: Message) {
    Says(m.headers, MESSAGE_TYPE, EXCEPTION)
  }

  /** The message is an event of this type. */
  predicate Typed(m: Message, event: Bytes) {
    !Raised(m) && Says(m.headers, EVENT_TYPE, event)
  }

  lemma Spelled()
    ensures Ascii(":message-type") == MESSAGE_TYPE && Ascii("exception") == EXCEPTION && Ascii(":event-type") == EVENT_TYPE
    ensures Ascii("contentBlockDelta") == DELTA && Ascii("metadata") == METADATA
    ensures Ascii("message") != DELTA && Ascii("message") != METADATA
    ensures Ascii("error") != DELTA && Ascii("error") != METADATA
  {
    Colons();
    Words();
    assert |Ascii("message")| == 7 && |Ascii("error")| == 5;
    hide Ascii;
  }

  lemma Colons()
    ensures Ascii(":message-type") == MESSAGE_TYPE && Ascii(":event-type") == EVENT_TYPE
  {
  }

  lemma Words()
    ensures Ascii("exception") == EXCEPTION && Ascii("contentBlockDelta") == DELTA && Ascii("metadata") == METADATA
  {
  }

  lemma ReceivedSays(m: Message)
    ensures IsException(Received(m)) <==> Raised(m)
    ensures EventType(Received(m)) == DELTA <==> Typed(m, DELTA)
    ensures EventType(Received(m)) == METADATA <==> Typed(m, METADATA)
  {
    Spelled();
    KeptIsSaid(m.headers, MESSAGE_TYPE, EXCEPTION);
    KeptIsSaid(m.headers, EVENT_TYPE, DELTA);
    KeptIsSaid(m.headers, EVENT_TYPE, METADATA);
    hide Ascii, KeepAll, Says;
  }

  /* ----- The verdict ----- */

  lemma {:induction false} ReceivedAt(ms: seq<Message>)
    ensures |ReceivedAll(ms)| == |ms| && forall i :: 0 <= i < |ms| ==> ReceivedAll(ms)[i] == Received(ms[i])
    decreases |ms|
  {
    if ms != [] {
      ReceivedAt(ms[1..]);
    }
    hide Received;
  }

  /** One of the first messages raises an exception. */
  ghost predicate SomeRaised(ms: seq<Message>, n: nat) {
    exists i :: 0 <= i < |ms| && i < n && Raised(ms[i])
  }

  lemma ExceptionIsRaised(ms: seq<Message>, room: nat)
    ensures HasException(Decoded(ReceivedAll(ms), room)) <==> SomeRaised(ms, room + 1)
  {
    ReceivedAt(ms);
    var frames := ReceivedAll(ms);
    var decoded := Decoded(frames, room);
    hide IsException, Raised, Received, ReceivedAll;
    if HasException(decoded) {
      var f :| f in decoded && IsException(f);
      var i :| 0 <= i < |decoded| && decoded[i] == f;
      ReceivedSays(ms[i]);
      assert Raised(ms[i]);
    }
    if SomeRaised(ms, room + 1) {
      var i :| 0 <= i < |ms| && i < room + 1 && Raised(ms[i]);
      ReceivedSays(ms[i]);
      assert decoded[i] in decoded;
    }
  }

  /** A stream of messages that ends cleanly, with a client that takes some frames and then fails: the
      verdict is a failure exactly if an exception was raised no later than the frame the client
      failed on, or the client failed other than by hanging up; else a hang-up is a cancellation. */
  lemma SentVerdictExactly(crc: Checksum, dec: Decoder, ms: seq<Message>, room: nat, abort: bool)
    requires forall m :: m in ms ==> WellFormed(m)
    ensures var v := Relay.Relay(crc, dec, EncodeAll(crc, ms), Eof, room, abort);
            && v.Stopped?
            && (v.streamErr <==> SomeRaised(ms, room + 1) || (room < |ms| && !abort))
            && (v.cancelled <==> !SomeRaised(ms, room + 1) && room < |ms| && abort)
  {
    WholeStreamIsClean(crc, ms);
    ReceivedLength(ms);
    ExceptionIsRaised(ms, room);
    hide HasException, SomeRaised, ReceivedAll, ReadAll, EncodeAll;
    VerdictExactly(dec, ReceivedAll(ms), Fail(Raw(Eof)), room, abort, NOTHING_YET);
  }

  /** A stream that is broken off between two messages or inside one, with a client that takes
      everything: a failure, unless it was the request that was cancelled and nothing was raised. */
  lemma BrokenVerdictExactly(crc: Checksum, dec: Decoder, ms: seq<Message>, m: Message, cut: nat, ending: Cause, room: nat,
                             abort: bool)
    requires (forall x :: x in ms ==> WellFormed(x)) && WellFormed(m) && |ms| <= room
    requires cut < FrameLen(m) && (ending == Canceled || ending == Broken)
    ensures |Encode(crc, m)| == FrameLen(m)
    ensures var v := Relay.Relay(crc, dec, EncodeAll(crc, ms) + Encode(crc, m)[..cut], ending, room, abort);
            && v.Stopped?
            && (v.streamErr <==> SomeRaised(ms, |ms|) || ending == Broken)
            && (v.cancelled <==> !SomeRaised(ms, |ms|) && ending == Canceled)
  {
    var end := BrokenEnd(crc, ms, m, cut, ending);
    hide *;
    AllReceived(ms, room);
    VerdictExactly(dec, ReceivedAll(ms), end, room, abort, NOTHING_YET);
    RelayStarts(crc, dec, EncodeAll(crc, ms) + Encode(crc, m)[..cut], ending, room, abort);
  }

  lemma AllReceived(ms: seq<Message>, room: nat)
    requires |ms| <= room
    ensures |ReceivedAll(ms)| == |ms| && (HasException(Decoded(ReceivedAll(ms), room)) <==> SomeRaised(ms, |ms|))
    ensures !NOTHING_YET.streamErr
  {
    ReceivedLength(ms);
    ExceptionIsRaised(ms, |ms|);
    assert Decoded(ReceivedAll(ms), room) == Decoded(ReceivedAll(ms), |ms|);
    assert SomeRaised(ms, |ms| + 1) <==> SomeRaised(ms, |ms|);
  }

  lemma BrokenEnd(crc: Checksum, ms: seq<Message>, m: Message, cut: nat, ending: Cause) returns (end: Read)
    requires (forall x :: x in ms ==> WellFormed(x)) && WellFormed(m)
    requires cut < FrameLen(m) && (ending == Canceled || ending == Broken)
    ensures |Encode(crc, m)| == FrameLen(m)
    ensures ReadAll(crc, EncodeAll(crc, ms) + Encode(crc, m)[..cut], ending) == (ReceivedAll(ms), end)
    ensures end.Fail? && !LooksLikeEof(end.error) && (IsCanceled(end.error) <==> ending == Canceled)
  {
    BreakIsReported(crc, m, cut, ending);
    var rest := Encode(crc, m)[..cut];
    end := ReadFrame(crc, rest, ending);
    ReadAllUnfolds(crc, rest, ending, end);
    hide ReadFrame, ReadAll, Encode, EncodeAll;
    StreamRoundTrip(crc, ms, rest, [], end, ending);
    assert ReceivedAll(ms) + [] == ReceivedAll(ms);
  }

  /* ----- The usage ----- */

  /** The text that the messages stream. */
  function SentText(dec: Decoder, ms: seq<Message>): string
    decreases |ms|
  {
    if ms == [] then ""
    else
      (if Typed(ms[0], DELTA) && dec.deltaText(ms[0].payload).Some? then dec.deltaText(ms[0].payload).value else "")
      + SentText(dec, ms[1..])
  }

  /** The usage that the last message to give one gives. */
  function SentUsage(dec: Decoder, ms: seq<Message>): Usage
    decreases |ms|
  {
    if ms == [] then Usage(0, 0, 0)
    else
      var n := |ms| - 1;
      if Typed(ms[n], METADATA) && dec.usage(ms[n].payload).Some? then dec.usage(ms[n].payload).value else SentUsage(dec, ms[..n])
  }

  lemma SaidByOne(dec: Decoder, m: Message)
    ensures TextIn(dec, Received(m))
            == if Typed(m, DELTA) && dec.deltaText(m.payload).Some? then dec.deltaText(m.payload).value else ""
    ensures UsageIn(dec, Received(m)) == if Typed(m, METADATA) then dec.usage(m.payload) else None
  {
    ReceivedSays(m);
    Spelled();
    hide Typed, EventType, Ascii, KeepAll;
  }

  lemma {:induction false} TextIsSent(dec: Decoder, ms: seq<Message>)
    ensures AllText(dec, ReceivedAll(ms)) == SentText(dec, ms)
    decreases |ms|
  {
    hide Typed, TextIn, Received;
    if ms != [] {
      TextIsSent(dec, ms[1..]);
      SaidByOne(dec, ms[0]);
      assert ([Received(ms[0])] + ReceivedAll(ms[1..]))[1..] == ReceivedAll(ms[1..]);
    }
  }

  lemma {:induction false} UsageIsSent(dec: Decoder, ms: seq<Message>)
    ensures LatestUsage(dec, ReceivedAll(ms), Usage(0, 0, 0)) == SentUsage(dec, ms)
    decreases |ms|
  {
    hide Typed, UsageIn, Received, ReceivedAll;
    ReceivedAt(ms);
    if ms != [] {
      var n := |ms| - 1;
      UsageIsSent(dec, ms[..n]);
      SaidByOne(dec, ms[n]);
      FirstReceived(ms, n);
    }
  }

  lemma FirstReceived(ms: seq<Message>, n: nat)
    requires n <= |ms|
    ensures |ReceivedAll(ms)| == |ms| && ReceivedAll(ms)[..n] == ReceivedAll(ms[..n])
  {
    hide Received, ReceivedAll;
    ReceivedAt(ms);
    ReceivedAt(ms[..n]);
  }

  /** A quarter of the text's length, rounded up. */
  predicate IsEstimate(n: int, text: string) {
    4 * n >= |text| > 4 * (n - 1)
  }

  /** The usage reported for a stream that ends cleanly: that of the last message that gives one and
      reached the client; if it counts no output, and text was streamed, with an estimate from
      all the text received. */
  lemma SentUsageExactly(crc: Checksum, dec: Decoder, ms: seq<Message>, room: nat, abort: bool)
    requires forall m :: m in ms ==> WellFormed(m)
    ensures var v := Relay.Relay(crc, dec, EncodeAll(crc, ms), Eof, room, abort);
            var usage := SentUsage(dec, if room < |ms| then ms[..room] else ms);
            var text := SentText(dec, if room < |ms| then ms[..room + 1] else ms);
            && v.Stopped?
            && v.usage.inputTokens == usage.inputTokens && v.usage.latency == usage.latency
            && (if usage.outputTokens == 0 then IsEstimate(v.usage.outputTokens, text)
                else v.usage.outputTokens == usage.outputTokens)
  {
    WholeStreamIsClean(crc, ms);
    hide *;
    var reached, decoded := if room < |ms| then ms[..room] else ms, if room < |ms| then ms[..room + 1] else ms;
    ReachedAndDecoded(ms, room);
    UsageIsSent(dec, reached);
    TextIsSent(dec, decoded);
    RelayStarts(crc, dec, EncodeAll(crc, ms), Eof, room, abort);
    UsageExactly(dec, ReceivedAll(ms), Fail(Raw(Eof)), room, abort, NOTHING_YET);
    NothingUsed(SentText(dec, decoded));
    EstimateIs(SentUsage(dec, reached), SentText(dec, decoded));
  }

  lemma ReachedAndDecoded(ms: seq<Message>, room: nat)
    ensures Delivered(ReceivedAll(ms), room) == ReceivedAll(if room < |ms| then ms[..room] else ms)
    ensures Decoded(ReceivedAll(ms), room) == ReceivedAll(if room < |ms| then ms[..room + 1] else ms)
  {
    ReceivedAt(ms);
    if room < |ms| {
      FirstReceived(ms, room);
      FirstReceived(ms, room + 1);
    }
    hide ReceivedAll;
  }

  lemma NothingUsed(text: string)
    ensures NOTHING_YET.usage == Usage(0, 0, 0) && NOTHING_YET.streamed + text == text
  {
  }

  lemma EstimateIs(usage: Usage, text: string)
    ensures var u := Reported(usage, text);
            && u.inputTokens == usage.inputTokens && u.latency == usage.latency
            && (if usage.outputTokens == 0 then IsEstimate(u.outputTokens, text) else u.outputTokens == usage.outputTokens)
  {
  }

  /* ----- The bill ----- */

  /** The job made of a verdict: a success, a cancelled call included, is charged the exact price of its
      tokens in whole micros; a failure nothing. A cancelled call whose usage never came is taken to
      have used its prompt's estimate. */
  lemma JobExactly(v: Verdict, key: string, org: string, hold: string, prompt: string, inputPrice: nat, outputPrice: nat)
    requires v.Stopped?
    ensures var p := JobOf(v, key, org, hold, prompt, inputPrice, outputPrice);
            && p.key == key && p.org == org && p.hold == hold
            && p.status == (if v.streamErr then Ledger.Failure else Ledger.Success)
            && p.outputTokens == v.usage.outputTokens
            && (if v.cancelled && v.usage.inputTokens <= 0 then IsEstimate(p.inputTokens, prompt)
                else p.inputTokens == v.usage.inputTokens)
            && (if v.streamErr then p.amount == 0 else IsPrice(p.amount, p.inputTokens, p.outputTokens, inputPrice, outputPrice))
  {
    var p := JobOf(v, key, org, hold, prompt, inputPrice, outputPrice);
    Charge.BillIsExact(p.inputTokens, p.outputTokens, inputPrice, outputPrice);
    TotalNotNegative(if p.inputTokens < 0 then 0 else p.inputTokens, if p.outputTokens < 0 then 0 else p.outputTokens,
                     inputPrice, outputPrice);
    hide Charge.ChargeMicros;
  }

  lemma TotalNotNegative(input: nat, output: nat, inputPrice: nat, outputPrice: nat)
    ensures input * inputPrice + output * outputPrice >= 0
  {
  }

  /** The exact price, prices being per million tokens, cut to whole micros. */
  predicate IsPrice(micros: int, inputTokens: int, outputTokens: int, inputPrice: nat, outputPrice: nat) {
    var total := (if inputTokens < 0 then 0 else inputTokens) * inputPrice + (if outputTokens < 0 then 0 else outputTokens) * outputPrice;
    1_000_000 * micros <= total < 1_000_000 * (micros + 1) && 0 <= micros
  }

  /** The tables in which a call of an organization has an open hold and is not recorded yet. */
  ghost predicate Expects(db: Ledger.Db, key: string, org: string, hold: string) {
    && Conservation.WellFormed(db) && org in db.orgs
    && key != "" && key !in db.requests && "usage:" + key !in db.ledger
    && hold in db.holds && db.holds[hold].org == org && !db.holds[hold].settled
  }

  /** What recording a call that costs so much does to the tables: the hold is settled and comes back
      less the cost, the cost is used and, if there is one, has a ledger row. */
  ghost predicate ChargedOnce(db: Ledger.Db, db': Ledger.Db, key: string, org: string, hold: string, cost: int) {
    && org in db.orgs && hold in db.holds
    && db'.orgs == db.orgs[org := Ledger.Org(db.orgs[org].granted, db.orgs[org].used + cost,
                                             db.orgs[org].remaining + db.holds[hold].amount - cost)]
    && db'.holds == db.holds[hold := db.holds[hold].(settled := true)]
    && db'.ledger == if cost > 0 then db.ledger["usage:" + key := Ledger.Entry(org, Ledger.Usage, cost)] else db.ledger
  }

  lemma RecordCharges(db: Ledger.Db, p: Ledger.RecordParams)
    requires Expects(db, p.key, p.org, p.hold) && p.amount >= 0
    ensures Ledger.RecordTx(db, p).Committed?
    ensures ChargedOnce(db, Ledger.RecordTx(db, p).db, p.key, p.org, p.hold, if p.status == Ledger.Success then p.amount else 0)
  {
    Recording.RecordCommitsExactly(db, p);
    Conservation.RecordShape(db, p);
    hide Ledger.RecordTx;
    EffectCharges(db, p, Ledger.RecordTx(db, p).db);
  }

  lemma EffectCharges(db: Ledger.Db, p: Ledger.RecordParams, db': Ledger.Db)
    requires Expects(db, p.key, p.org, p.hold) && p.amount >= 0 && Conservation.RecordEffect(db, p, db')
    ensures ChargedOnce(db, db', p.key, p.org, p.hold, if p.status == Ledger.Success then p.amount else 0)
  {
    var cost := if p.status == Ledger.Success then p.amount else 0;
    var o := db.orgs[p.org];
    assert Ledger.UsageKey(p.key) == "usage:" + p.key;
    assert db'.orgs == db.orgs[p.org := Ledger.Org(o.granted, o.used + cost, o.remaining + db.holds[p.hold].amount - cost)];
    hide Conservation.WellFormed;
  }

  /** From a verdict of either relay to the tables: the call is recorded and its hold settled; a failure
      costs nothing, and everything else, a cancelled call too, the exact price of its tokens. */
  lemma VerdictIsBilled(v: Verdict, db: Ledger.Db, key: string, org: string, hold: string, prompt: string, inputPrice: nat,
                        outputPrice: nat)
    returns (input: int, cost: int)
    requires v.Stopped? && Expects(db, key, org, hold)
    ensures var r := Ledger.RecordTx(db, JobOf(v, key, org, hold, prompt, inputPrice, outputPrice));
            r.Committed? && ChargedOnce(db, r.db, key, org, hold, cost)
    ensures if v.cancelled && v.usage.inputTokens <= 0 then IsEstimate(input, prompt) else input == v.usage.inputTokens
    ensures if v.streamErr then cost == 0 else IsPrice(cost, input, v.usage.outputTokens, inputPrice, outputPrice)
  {
    hide *;
    JobExactly(v, key, org, hold, prompt, inputPrice, outputPrice);
    var p := JobOf(v, key, org, hold, prompt, inputPrice, outputPrice);
    PriceNotNegative(p, v, inputPrice, outputPrice);
    RecordCharges(db, p);
    input, cost := p.inputTokens, if p.status == Ledger.Success then p.amount else 0;
  }

  /** From the messages to the tables: a stream in which an exception was raised before the client gave
      out costs nothing, whatever it delivered; one that reaches the client whole costs exactly the
      price of the usage it reported, or of the estimate of its text. */
  lemma SentStreamIsBilled(crc: Checksum, dec: Decoder, ms: seq<Message>, room: nat, abort: bool, v: Verdict,
                           db: Ledger.Db, key: string, org: string, hold: string, prompt: string, inputPrice: nat, outputPrice: nat)
    requires (forall m :: m in ms ==> WellFormed(m)) && Expects(db, key, org, hold)
    requires v == Relay.Relay(crc, dec, EncodeAll(crc, ms), Eof, room, abort)
    ensures v.Stopped?
    ensures var r := Ledger.RecordTx(db, JobOf(v, key, org, hold, prompt, inputPrice, outputPrice));
            && r.Committed?
            && (SomeRaised(ms, room + 1) ==> ChargedOnce(db, r.db, key, org, hold, 0))
            && (!SomeRaised(ms, room + 1) && |ms| <= room ==>
                  var usage, text := SentUsage(dec, ms), SentText(dec, ms);
                  exists cost, output ::
                    && ChargedOnce(db, r.db, key, org, hold, cost)
                    && IsPrice(cost, usage.inputTokens, output, inputPrice, outputPrice)
                    && if usage.outputTokens == 0 then IsEstimate(output, text) else output == usage.outputTokens)
  {
    hide *;
    SentVerdictExactly(crc, dec, ms, room, abort);
    SentUsageExactly(crc, dec, ms, room, abort);
    var input, cost := VerdictIsBilled(v, db, key, org, hold, prompt, inputPrice, outputPrice);
  }

  lemma PriceNotNegative(p: Ledger.RecordParams, v: Verdict, inputPrice: nat, outputPrice: nat)
    requires v.Stopped?
    requires if v.streamErr then p.amount == 0 else IsPrice(p.amount, p.inputTokens, p.outputTokens, inputPrice, outputPrice)
    ensures p.amount >= 0
  {
  }
}
