/** The neutral stream of Converse frames between the providers and the dialect sinks. */
module Frames {
  import opened Wrappers

  datatype Tool = Tool(id: string, name: string)

  datatype Frame =
    | MessageStart
    | BlockStart(index: int, tool: Option<Tool>)
    | BlockDelta(index: int, text: string, input: Option<string>)
    | BlockStop(index: int)
    | MessageStop(reason: string)
    | Metadata(inputTokens: int, outputTokens: int)
    | ErrorFrame(message: string)
    | OtherFrame

  /** What a sink has taken, how much more it will take, and whether a write has failed. */
  datatype Taken = Taken(frames: seq<Frame>, room: nat, writeErr: bool)

  /** Frames reach the sink in order, as far as it has room. */
  function Take(t: Taken, fs: seq<Frame>): Taken {
    if |fs| <= t.room then Taken(t.frames + fs, t.room - |fs|, t.writeErr)
    else Taken(t.frames + fs[..t.room], 0, true)
  }

  lemma TakeTwice(t: Taken, fs: seq<Frame>, gs: seq<Frame>)
    requires |fs| <= t.room
    ensures Take(Take(t, fs), gs) == Take(t, fs + gs)
  {
    if |fs + gs| > t.room {
      assert (fs + gs)[..t.room] == fs + gs[..t.room - |fs|];
    }
  }

  lemma TakeStops(t: Taken, fs: seq<Frame>, gs: seq<Frame>)
    requires |fs| > t.room
    ensures Take(t, fs) == Take(t, fs + gs)
  {
    assert (fs + gs)[..t.room] == fs[..t.room];
  }

  /** The sink behind the adapter: it takes frames until it has no room left, then every write
      fails, and it remembers that one did. */
  class TrackingSink {
    var frames: seq<Frame>
    var room: nat
    var writeErr: bool

    function Current(): Taken
      reads this
    {
      Taken(frames, room, writeErr)
    }

    constructor (room: nat)
      ensures Current() == Taken([], room, false)
    {
      frames, this.room, writeErr := [], room, false;
    }

    method HandleFrame(f: Frame) returns (ok: bool)
      modifies this
      ensures ok == (old(room) > 0)
      ensures frames == old(frames) + if old(room) > 0 then [f] else []
      ensures room == (if old(room) > 0 then old(room) - 1 else 0) && writeErr == (old(writeErr) || old(room) == 0)
      ensures Current() == Take(old(Current()), [f])
    {
      if room == 0 {
        writeErr := true;
        return false;
      }
      frames, room := frames + [f], room - 1;
      ok := true;
    }
  }
}
