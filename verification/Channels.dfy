/** TURN channels: the two tables a client keeps, and the ChannelData frames that use them. */
module Channels {
  import opened Bytes

  const CHANNEL_MIN: u16 := 0x4000
  const CHANNEL_MAX: u16 := 0x7FFF

  /** How many numbers the counter hands out before it comes back to zero. */
  const SPAN: nat := 0xC000
  const CYCLE: nat := 0x1_0000

  datatype Peer = Peer(ip: string, port: u16)

  function Key(p: Peer): (k: string) { p.ip + ":" + Decimal(p.port) }

  lemma LastColon(a: string, x: string, b: string, y: string)
    requires a + ":" + x == b + ":" + y && ':' !in x && ':' !in y
    ensures |a| <= |b|
  {
    var s := a + ":" + x;
    assert s[|a|] == ':';
    assert s == b + ":" + y;
    assert forall i :: |b| < i < |s| ==> s[i] == y[i - |b| - 1];
  }

  lemma SplitAtLastColon(a: string, x: string, b: string, y: string)
    requires a + ":" + x == b + ":" + y && ':' !in x && ':' !in y
    ensures a == b && x == y
  {
    LastColon(a, x, b, y);
    LastColon(b, y, a, x);
    var s := a + ":" + x;
    assert s[..|a|] == a && s[..|b|] == b;
    assert s[|a| + 1..] == x && s[|b| + 1..] == y;
  }

  /** The last colon separates the port, whatever colons the address holds. */
  lemma KeyInjective(p: Peer, q: Peer)
    requires Key(p) == Key(q)
    ensures p == q
  {
    SplitAtLastColon(p.ip, Decimal(p.port), q.ip, Decimal(q.port));
    DecimalInjective(p.port, q.port);
  }

  // ---- The tables ----

  /** The two maps, the 16-bit counter, the permissions, and how many numbers have been taken. */
  datatype Table = Table(forward: map<string, u16>, back: map<u16, Peer>, next: u16, permissions: set<string>,
                         taken: nat)

  const FRESH: Table := Table(map[], map[], CHANNEL_MIN, {}, 0)

  function Take(t: Table): (r: Table)
  {
    var n: int := t.next;
    t.(next := (n + 1) % 0x1_0000, taken := t.taken + 1)
  }

  function Bind(t: Table, p: Peer): (r: Table)
  {
    if Key(p) in t.forward then t
    else if t.next > CHANNEL_MAX then Take(t)
    else Take(t).(forward := t.forward[Key(p) := t.next], back := t.back[t.next := p],
    permissions := t.permissions + {p.ip})
  }

  function After(peers: seq<Peer>): (t: Table)
  {
    if peers == [] then FRESH else Bind(After(peers[..|peers| - 1]), peers[|peers| - 1])
  }

  predicate InRange(t: Table) { forall k :: k in t.forward ==> CHANNEL_MIN <= t.forward[k] <= CHANNEL_MAX }

  predicate Inverse(t: Table) {
    && (forall k :: k in t.forward ==> t.forward[k] in t.back && Key(t.back[t.forward[k]]) == k)
    && (forall c :: c in t.back ==> Key(t.back[c]) in t.forward && t.forward[Key(t.back[c])] == c)
  }

  /** After how many earlier numbers a channel is first taken. */
  function Turn(c: u16): (n: nat)
    ensures n < CYCLE
  {
    if c >= CHANNEL_MIN then c as int - CHANNEL_MIN as int else c as int + SPAN
  }

  predicate Counted(t: Table) {
    && t.next as int == (CHANNEL_MIN as int + t.taken) % CYCLE
    && (t.taken <= CYCLE ==> forall c :: c in t.back ==> Turn(c) < t.taken)
    && (t.taken > 0 ==> CHANNEL_MIN in t.back)
  }

  /** Whether channel zero, which is outside the range, is bound. */
  predicate ZeroBound(t: Table) { exists k :: k in t.forward && t.forward[k] == 0 }

  /** Whether a peer's channel has gone to another peer. */
  predicate Clash(t: Table) { exists k :: k in t.forward && t.forward[k] in t.back && Key(t.back[t.forward[k]]) != k }

  predicate TableOk(t: Table) {
    && Counted(t)
    && (if t.taken <= SPAN then InRange(t) else ZeroBound(t))
    && (if t.taken <= CYCLE then Inverse(t) else Clash(t))
  }

  lemma TakeCounts(t: Table)
    requires Counted(t)
    ensures t.taken < SPAN ==> t.next as int == CHANNEL_MIN as int + t.taken
    ensures t.taken == SPAN ==> t.next == 0
    ensures t.taken < CYCLE ==> Turn(t.next) == t.taken && t.next !in t.back
    ensures t.taken == CYCLE ==> t.next == CHANNEL_MIN
  {
  }

  lemma BindCounted(t: Table, p: Peer)
    requires Counted(t)
    ensures Counted(Bind(t, p))
  {
    TakeCounts(t);
  }

  lemma BindRange(t: Table, p: Peer)
    requires Counted(t) && if t.taken <= SPAN then InRange(t) else ZeroBound(t)
    ensures var r := Bind(t, p); if r.taken <= SPAN then InRange(r) else ZeroBound(r)
  {
    TakeCounts(t);
    var r := Bind(t, p);
    if t.taken > SPAN {
      var k :| k in t.forward && t.forward[k] == 0;
      assert r.forward[k] == 0;
    } else if t.taken == SPAN && Key(p) !in t.forward {
      assert r.forward[Key(p)] == 0;
    }
  }

  lemma BindInverse(t: Table, p: Peer)
    requires Inverse(t) && Key(p) !in t.forward && t.next !in t.back && t.next <= CHANNEL_MAX
    ensures Inverse(Bind(t, p))
  {
    var r := Bind(t, p);
    forall c | c in r.back
      ensures Key(r.back[c]) in r.forward && r.forward[Key(r.back[c])] == c
    {
      if c != t.next {
        assert c in t.back && r.back[c] == t.back[c];
      }
    }
    forall k | k in r.forward
      ensures r.forward[k] in r.back && Key(r.back[r.forward[k]]) == k
    {
      if k != Key(p) {
        assert k in t.forward && t.forward[k] in t.back;
      }
    }
  }

  /** The number after a whole cycle is the first one again, and its first owner loses it. */
  lemma BindClash(t: Table, p: Peer)
    requires Counted(t) && Key(p) !in t.forward
    requires t.taken >= CYCLE && if t.taken == CYCLE then Inverse(t) else Clash(t)
    ensures Clash(Bind(t, p))
  {
    TakeCounts(t);
    var r := Bind(t, p);
    if t.taken == CYCLE {
      var k := Key(t.back[CHANNEL_MIN]);
      assert k in r.forward && r.back[r.forward[k]] == p;
    } else {
      var k :| k in t.forward && t.forward[k] in t.back && Key(t.back[t.forward[k]]) != k;
      assert k in r.forward && r.forward[k] in r.back;
    }
  }

  lemma BindOk(t: Table, p: Peer)
    requires TableOk(t)
    ensures TableOk(Bind(t, p))
  {
    BindCounted(t, p);
    BindRange(t, p);
    if Key(p) !in t.forward {
      TakeCounts(t);
      if t.taken >= CYCLE {
        BindClash(t, p);
      } else if t.next <= CHANNEL_MAX {
        BindInverse(t, p);
      }
    }
  }

  lemma {:induction false} RunOk(peers: seq<Peer>)
    ensures TableOk(After(peers))
  {
    if peers != [] {
      RunOk(peers[..|peers| - 1]);
      BindOk(After(peers[..|peers| - 1]), peers[|peers| - 1]);
    }
  }

  /**
   * Channels lie in 0x4000 to 0x7FFF exactly for the first 49152 numbers taken: the next one is zero, and stays. The
   * tables are mutual inverses exactly for the first 65536: the next one is the first again, and takes it from its
   * peer.
   */
  lemma TablesAreInverse(peers: seq<Peer>)
    ensures InRange(After(peers)) <==> After(peers).taken <= SPAN
    ensures Inverse(After(peers)) <==> After(peers).taken <= CYCLE
  {
    RunOk(peers);
  }

  lemma BindKeeps(t: Table, p: Peer, c: u16)
    requires Counted(t) && Bind(t, p).taken <= CYCLE && c in t.back
    ensures t.taken <= CYCLE && c in Bind(t, p).back && Bind(t, p).back[c] == t.back[c]
  {
    TakeCounts(t);
  }

  lemma TakenGrows(t: Table, p: Peer)
    ensures t.taken <= Bind(t, p).taken
  {
  }

  /** While the tables are in order no channel is given to a second peer. */
  lemma {:induction false} ChannelsAreNotReused(peers: seq<Peer>, n: nat, c: u16)
    requires n <= |peers| && After(peers).taken <= CYCLE && c in After(peers[..n]).back
    ensures c in After(peers).back && After(peers).back[c] == After(peers[..n]).back[c]
    decreases |peers|
  {
    if n == |peers| {
      assert peers[..n] == peers;
    } else {
      var before, last := peers[..|peers| - 1], peers[|peers| - 1];
      RunOk(before);
      TakenGrows(After(before), last);
      assert before[..n] == peers[..n];
      ChannelsAreNotReused(before, n, c);
      BindKeeps(After(before), last, c);
    }
  }

  // ---- ChannelData ----

  function Pad(n: nat): (r: nat) { (4 - n % 4) % 4 }

  function EncodeChannelData(channel: u16, payload: seq<byte>): (r: seq<byte>)
  {
    Write16(channel) + Write16(|payload| % 0x1_0000) + payload + Zeros(Pad(|payload|))
  }

  datatype Data = Data(channel: u16, payload: seq<byte>)

  function ParseChannelData(raw: seq<byte>): (r: Option<Data>)
  {
    if |raw| < 4 then None
    else
      var channel, length := Read16(raw), Read16(raw[2..]);
      if channel < CHANNEL_MIN || channel > CHANNEL_MAX || 4 + length > |raw| then None
      else Some(Data(channel, raw[4..4 + length]))
  }

  /** The demultiplexer's test on the two top bits. */
  predicate IsChannelData(raw: seq<byte>) { |raw| >= 4 && raw[0] / 64 == 1 }

  lemma ChannelDataRoundTrip(channel: u16, payload: seq<byte>)
    requires CHANNEL_MIN <= channel <= CHANNEL_MAX && |payload| <= 0xFFFF
    ensures IsChannelData(EncodeChannelData(channel, payload))
    ensures ParseChannelData(EncodeChannelData(channel, payload)) == Some(Data(channel, payload))
  {
    var raw, tail := EncodeChannelData(channel, payload), payload + Zeros(Pad(|payload|));
    assert raw == Write16(channel) + (Write16(|payload|) + tail);
    assert raw[2..] == Write16(|payload|) + tail;
    ReadWrite16(channel, Write16(|payload|) + tail);
    ReadWrite16(|payload|, tail);
  }

  /** What parses passes the demultiplexer: the two tests agree on the range of channels. */
  lemma ParsedIsChannelData(raw: seq<byte>)
    requires |raw| >= 4
    ensures CHANNEL_MIN <= Read16(raw) <= CHANNEL_MAX <==> IsChannelData(raw)
  {
  }

  // ---- Sending and receiving ----

  datatype Delivery = Delivery(peer: Peer, payload: seq<byte>)

  /** The frame for a peer with a channel; a peer without one is reached by a Send indication instead. */
  function Outgoing(t: Table, p: Peer, payload: seq<byte>): (r: Option<seq<byte>>)
  {
    if Key(p) in t.forward && t.forward[Key(p)] != 0 then Some(EncodeChannelData(t.forward[Key(p)], payload)) else None
  }

  function Incoming(t: Table, raw: seq<byte>): (r: Option<Delivery>)
  {
    match ParseChannelData(raw)
    case None => None
    case Some(d) => if d.channel in t.back then Some(Delivery(t.back[d.channel], d.payload)) else None
  }

  lemma LowChannelIsNoChannelData(channel: u16, payload: seq<byte>)
    requires channel < CHANNEL_MIN
    ensures ParseChannelData(EncodeChannelData(channel, payload)).None?
    ensures !IsChannelData(EncodeChannelData(channel, payload))
  {
    var raw := EncodeChannelData(channel, payload);
    var tail := Write16(|payload| % 0x1_0000) + payload + Zeros(Pad(|payload|));
    assert raw == Write16(channel) + tail;
    ReadWrite16(channel, tail);
    ParsedIsChannelData(raw);
  }

  /**
   * While the tables are inverse, a frame for a bound peer comes back as that peer and that payload exactly when its
   * channel is in range. Channels bound after the counter wraps are not: zero is not used, and what is sent on the
   * others is not channel data to any receiver.
   */
  lemma BoundPeerRoundTrip(peers: seq<Peer>, p: Peer, payload: seq<byte>)
    requires After(peers).taken <= CYCLE && Key(p) in After(peers).forward && |payload| <= 0xFFFF
    ensures var t := After(peers); var c, frame := t.forward[Key(p)], Outgoing(t, p, payload);
            && (frame.Some? <==> c != 0)
            && (c >= CHANNEL_MIN ==> Incoming(t, frame.value) == Some(Delivery(p, payload)))
            && (0 < c < CHANNEL_MIN ==> ParseChannelData(frame.value).None? && !IsChannelData(frame.value))
  {
    RunOk(peers);
    var t := After(peers);
    var c := t.forward[Key(p)];
    ForwardInRange(peers, Key(p));
    if c >= CHANNEL_MIN {
      ChannelDataRoundTrip(c, payload);
      KeyInjective(p, t.back[c]);
    } else {
      LowChannelIsNoChannelData(c, payload);
    }
  }

  lemma {:induction false} ForwardInRange(peers: seq<Peer>, k: string)
    requires k in After(peers).forward
    ensures After(peers).forward[k] <= CHANNEL_MAX
  {
    var before := peers[..|peers| - 1];
    if k in After(before).forward {
      ForwardInRange(before, k);
    }
  }

  // ---- The object ----

  class ChannelTable {
    const tcpAllocation: bool
    var forward: map<string, u16>
    var back: map<u16, Peer>
    var next: u16
    var permissions: set<string>
    ghost var taken: nat

    ghost function View(): (t: Table)
      reads this
    {
      Table(forward, back, next, permissions, taken)
    }

    constructor (tcpAllocation: bool)
      ensures this.tcpAllocation == tcpAllocation && View() == FRESH
    {
      this.tcpAllocation := tcpAllocation;
      forward, back, next, permissions, taken := map[], map[], CHANNEL_MIN, {}, 0;
    }

    /** The channel to request from the server, if one was taken for the peer. */
    method BindChannel(p: Peer) returns (request: Option<u16>)
      modifies this
      ensures View() == if tcpAllocation then old(View()) else Bind(old(View()), p)
      ensures request.Some? <==> Key(p) !in old(forward) && Key(p) in forward
      ensures request.Some? ==> request.value == forward[Key(p)]
    {
      if tcpAllocation || Key(p) in forward {
        return None;
      }
      var channel := next;
      var n: int := next;
      next := (n + 1) % 0x1_0000;
      taken := taken + 1;
      if channel > CHANNEL_MAX {
        return None;
      }
      forward := forward[Key(p) := channel];
      back := back[channel := p];
      permissions := permissions + {p.ip};
      return Some(channel);
    }

    method SendIndication(p: Peer, payload: seq<byte>) returns (frame: Option<seq<byte>>)
      ensures frame == Outgoing(View(), p, payload)
    {
      var channel: u16 := if Key(p) in forward then forward[Key(p)] else 0;
      if channel != 0 {
        return Some(EncodeChannelData(channel, payload));
      }
      return None;
    }

    method HandleChannelData(raw: seq<byte>) returns (delivery: Option<Delivery>)
      ensures delivery == Incoming(View(), raw)
    {
      var frame := ParseChannelData(raw);
      if frame.None? || frame.value.channel !in back {
        return None;
      }
      return Some(Delivery(back[frame.value.channel], frame.value.payload));
    }
  }
}
