/** Length-prefixed frames on a byte stream: what is dispatched does not depend on how the stream is cut. */
module Framing {
  import opened Bytes

  type Chunk = seq<byte>

  /** Bytes not yet dispatched, and the frames dispatched so far. */
  datatype Rx = Rx(buffer: seq<byte>, frames: seq<Chunk>)

  const EMPTY: Rx := Rx([], [])

  /** A complete frame is at the front. */
  predicate Ready(s: seq<byte>) { |s| >= 2 && |s| >= 2 + Read16(s) }

  function First(s: seq<byte>): (r: Chunk)
    requires Ready(s)
  {
    s[2..2 + Read16(s)]
  }

  function Rest(s: seq<byte>): (r: seq<byte>)
    requires Ready(s)
    ensures |r| < |s|
  {
    s[2 + Read16(s)..]
  }

  function Drain(r: Rx): (d: Rx)
    decreases |r.buffer|
  {
    if !Ready(r.buffer) then r else Drain(Rx(Rest(r.buffer), r.frames + [First(r.buffer)]))
  }

  function Feed(r: Rx, chunk: Chunk): (d: Rx) { Drain(r.(buffer := r.buffer + chunk)) }

  function FeedAll(chunks: seq<Chunk>): (d: Rx)
  {
    if chunks == [] then EMPTY else Feed(FeedAll(chunks[..|chunks| - 1]), chunks[|chunks| - 1])
  }

  function Flatten(chunks: seq<Chunk>): (s: seq<byte>)
  {
    if chunks == [] then [] else Flatten(chunks[..|chunks| - 1]) + chunks[|chunks| - 1]
  }

  // ---- Chunk boundaries ----

  lemma ReadyExtends(s: seq<byte>, t: seq<byte>)
    requires Ready(s)
    ensures Ready(s + t) && First(s + t) == First(s) && Rest(s + t) == Rest(s) + t
  {
    assert Read16(s + t) == Read16(s);
  }

  /** Draining early and going on with more bytes is the same as having had the bytes all along. */
  lemma {:induction false} DrainEarly(r: Rx, more: seq<byte>)
    ensures Drain(Rx(r.buffer + more, r.frames)) == Feed(Drain(r), more)
    decreases |r.buffer|
  {
    if Ready(r.buffer) {
      ReadyExtends(r.buffer, more);
      DrainEarly(Rx(Rest(r.buffer), r.frames + [First(r.buffer)]), more);
    }
  }

  /** Feeding chunks one by one is draining the whole stream at once. */
  lemma {:induction false} FeedAllIsDrain(chunks: seq<Chunk>)
    ensures FeedAll(chunks) == Drain(Rx(Flatten(chunks), []))
  {
    if chunks != [] {
      var last := |chunks| - 1;
      FeedAllIsDrain(chunks[..last]);
      DrainEarly(Rx(Flatten(chunks[..last]), []), chunks[last]);
    }
  }

  /** Two ways of cutting the same stream dispatch the same frames and leave the same bytes over. */
  lemma ChunksDoNotMatter(cut: seq<Chunk>, cut': seq<Chunk>)
    requires Flatten(cut) == Flatten(cut')
    ensures FeedAll(cut) == FeedAll(cut')
  {
    FeedAllIsDrain(cut);
    FeedAllIsDrain(cut');
  }

  // ---- Encoding ----

  /** The TURN side refuses a payload the length field cannot hold. */
  function EncodeStreamFrame(p: Chunk): (r: Option<seq<byte>>)
  {
    if |p| > 0xFFFF then None else Some(Write16(|p|) + p)
  }

  /** The session side truncates the length. */
  function FrameTcpStun(p: Chunk): (r: seq<byte>) { Write16(|p| % 0x1_0000) + p }

  function Encoded(ps: seq<Chunk>): (s: seq<byte>)
  {
    if ps == [] then [] else FrameTcpStun(ps[0]) + Encoded(ps[1..])
  }

  predicate Fit(ps: seq<Chunk>) { forall i :: 0 <= i < |ps| ==> |ps[i]| <= 0xFFFF }

  lemma FrameFirst(p: Chunk, rest: seq<byte>)
    requires |p| <= 0xFFFF
    ensures EncodeStreamFrame(p) == Some(FrameTcpStun(p))
    ensures Ready(FrameTcpStun(p) + rest) && First(FrameTcpStun(p) + rest) == p && Rest(FrameTcpStun(p) + rest) == rest
  {
    assert FrameTcpStun(p) + rest == Write16(|p|) + (p + rest);
    ReadWrite16(|p|, p + rest);
  }

  lemma DrainOne(p: Chunk, rest: seq<byte>, frames: seq<Chunk>)
    requires |p| <= 0xFFFF
    ensures Drain(Rx(FrameTcpStun(p) + rest, frames)) == Drain(Rx(rest, frames + [p]))
  {
    FrameFirst(p, rest);
  }

  lemma MoveHead(frames: seq<Chunk>, ps: seq<Chunk>)
    requires ps != []
    ensures frames + [ps[0]] + ps[1..] == frames + ps
  {
  }

  lemma {:induction false} DrainEncoded(ps: seq<Chunk>, frames: seq<Chunk>)
    requires Fit(ps)
    ensures Drain(Rx(Encoded(ps), frames)) == Rx([], frames + ps)
    decreases |ps|
  {
    if ps == [] {
      assert frames + ps == frames;
    } else {
      DrainOne(ps[0], Encoded(ps[1..]), frames);
      DrainEncoded(ps[1..], frames + [ps[0]]);
      MoveHead(frames, ps);
    }
  }

  /**
   * However the encodings of payloads are cut up in transit, the receiver dispatches those payloads and nothing else.
   */
  lemma StreamRoundTrip(ps: seq<Chunk>, cut: seq<Chunk>)
    requires Fit(ps) && Flatten(cut) == Encoded(ps)
    ensures FeedAll(cut) == Rx([], ps)
  {
    FeedAllIsDrain(cut);
    DrainEncoded(ps, []);
    assert [] + ps == ps;
  }

  lemma {:induction false} DrainKeepsFrames(r: Rx)
    ensures r.frames <= Drain(r).frames
    decreases |r.buffer|
  {
    if Ready(r.buffer) {
      DrainKeepsFrames(Rx(Rest(r.buffer), r.frames + [First(r.buffer)]));
    }
  }

  /** The session's framing carries a payload exactly when it fits the length field. */
  lemma TruncationLosesPayload(p: Chunk)
    ensures Drain(Rx(FrameTcpStun(p), [])) == Rx([], [p]) <==> |p| <= 0xFFFF
  {
    var s := FrameTcpStun(p);
    if |p| <= 0xFFFF {
      FrameFirst(p, []);
      assert s + [] == s;
    } else {
      ReadWrite16(|p| % 0x1_0000, p);
      assert |First(s)| < |p|;
      DrainKeepsFrames(Rx(Rest(s), [First(s)]));
      assert [] + [First(s)] == [First(s)];
      assert Drain(Rx(s, [])).frames[0] == First(s);
    }
  }

  // ---- The two reassemblers ----

  class TurnStream {
    var buffer: seq<byte>
    ghost var frames: seq<Chunk>

    ghost function View(): (r: Rx)
      reads this
    {
      Rx(buffer, frames)
    }

    constructor ()
      ensures View() == EMPTY
    {
      buffer, frames := [], [];
    }

    method TryTake() returns (frame: Option<Chunk>)
      modifies `buffer
      ensures frame.Some? <==> Ready(old(buffer))
      ensures frame.Some? ==> frame.value == First(old(buffer)) && buffer == Rest(old(buffer))
      ensures frame.None? ==> buffer == old(buffer)
    {
      if |buffer| < 2 {
        return None;
      }
      var length: int := Read16(buffer);
      if |buffer| < 2 + length {
        return None;
      }
      frame := Some(buffer[2..2 + length]);
      buffer := buffer[2 + length..];
    }

    method OnInbound(chunk: Chunk)
      modifies this
      ensures View() == Feed(old(View()), chunk)
    {
      buffer := buffer + chunk;
      var frame := TryTake();
      while frame.Some?
        invariant frame.Some? ==> Drain(Rx(buffer, frames + [frame.value])) == Feed(old(View()), chunk)
        invariant frame.None? ==> View() == Feed(old(View()), chunk)
        decreases frame.Some?, |buffer|
      {
        frames := frames + [frame.value];
        frame := TryTake();
      }
    }
  }

  class SessionStreams {
    var buffers: map<nat, seq<byte>>
    ghost var frames: map<nat, seq<Chunk>>

    ghost function View(cid: nat): (r: Rx)
      reads this
    {
      Rx(if cid in buffers then buffers[cid] else [], if cid in frames then frames[cid] else [])
    }

    constructor ()
      ensures forall cid :: View(cid) == EMPTY
    {
      buffers, frames := map[], map[];
    }

    method OnTcpCarrierData(cid: nat, chunk: Chunk)
      modifies this
      ensures View(cid) == Feed(old(View(cid)), chunk)
      ensures forall other :: other != cid ==> View(other) == old(View(other))
    {
      var buf := (if cid in buffers then buffers[cid] else []) + chunk;
      ghost var out := View(cid).frames;
      while |buf| >= 2
        invariant Drain(Rx(buf, out)) == Feed(View(cid), chunk)
        decreases |buf|
      {
        var length: int := Read16(buf);
        if |buf| < 2 + length {
          break;
        }
        out := out + [buf[2..2 + length]];
        buf := buf[2 + length..];
      }
      buffers := buffers[cid := buf];
      frames := frames[cid := out];
    }
  }
}
