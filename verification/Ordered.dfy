/** Ordered delivery over UDP: parking and numbering on the sending side, reordering on the receiving side. */
module Ordered {
  import opened Bytes

  type Payload = seq<byte>

  const PARK: nat := 64
  const WINDOW: nat := 64
  const WRAP: nat := 0x1_0000_0000

  /** A numbered frame on the wire. */
  function Frame(n: u32, p: Payload): (raw: seq<byte>) { Write32(n) + p }

  // ---- The sender ----

  datatype Sender = Sender(connected: bool, pending: seq<Payload>, nextSeq: u32, wire: seq<seq<byte>>)

  datatype SenderEvent = Submit(data: Payload) | Connect | Disconnect

  function Transmit(s: Sender, p: Payload): (r: Sender)
  {
    var n: int := s.nextSeq;
    s.(nextSeq := (n + 1) % WRAP, wire := s.wire + [Frame(s.nextSeq, p)])
  }

  function Park(s: Sender, p: Payload): (r: Sender)
  {
    s.(pending := (if |s.pending| >= PARK then s.pending[1..] else s.pending) + [p])
  }

  function Flush(s: Sender): (r: Sender)
    decreases |s.pending|
  {
    if s.pending == [] then s else Flush(Transmit(s.(pending := s.pending[1..]), s.pending[0]))
  }

  function SenderStep(s: Sender, e: SenderEvent): (r: Sender)
  {
    match e
    case Submit(p) => if s.connected then Transmit(s, p) else Park(s, p)
    case Connect => Flush(s.(connected := true))
    case Disconnect => s.(connected := false)
  }

  function SenderAfter(es: seq<SenderEvent>): (s: Sender)
  {
    if es == [] then Sender(false, [], 0, [])
    else SenderStep(SenderAfter(es[..|es| - 1]), es[|es| - 1])
  }

  function Submitted(es: seq<SenderEvent>): (ps: seq<Payload>)
  {
    if es == [] then []
    else
      var e := es[|es| - 1];
      Submitted(es[..|es| - 1]) + if e.Submit? then [e.data] else []
  }

  /** idx gives, for each frame on the wire, its place in the order of submission. */
  ghost predicate InOrder(s: Sender, sub: seq<Payload>, idx: seq<nat>) {
    && |idx| == |s.wire|
    && (forall k :: 0 <= k < |idx| ==> idx[k] < |sub|)
    && (forall j, k :: 0 <= j < k < |idx| ==> idx[j] < idx[k])
    && (forall k :: 0 <= k < |idx| ==> s.wire[k] == Frame(k % WRAP, sub[idx[k]]))
  }

  /** Submitted frame j is on the wire, still parked, or was dropped with 64 newer frames submitted after it. */
  predicate Accounted(s: Sender, sub: seq<Payload>, idx: seq<nat>, j: nat) {
    j in idx || j >= |sub| - |s.pending| || j + PARK < |sub|
  }

  ghost predicate SenderOk(s: Sender, sub: seq<Payload>, idx: seq<nat>) {
    && InOrder(s, sub, idx)
    && s.nextSeq as int == |s.wire| % WRAP
    && (s.connected ==> s.pending == []) && |s.pending| <= PARK
    && |s.pending| <= |sub| && s.pending == sub[|sub| - |s.pending|..]
    && (forall k :: 0 <= k < |idx| ==> idx[k] < |sub| - |s.pending|)
    && forall j :: 0 <= j < |sub| ==> Accounted(s, sub, idx, j)
  }

  lemma NextSeq(n: nat)
    ensures (n % WRAP + 1) % WRAP == (n + 1) % WRAP
  {
  }

  lemma TransmitOk(s: Sender, sub: seq<Payload>, idx: seq<nat>, p: Payload)
    requires SenderOk(s, sub, idx) && s.pending == []
    ensures SenderOk(Transmit(s, p), sub + [p], idx + [|sub|])
  {
    NextSeq(|s.wire|);
    var idx' := idx + [|sub|];
    forall j | 0 <= j < |sub| + 1
      ensures Accounted(Transmit(s, p), sub + [p], idx', j)
    {
      if j < |sub| {
        assert Accounted(s, sub, idx, j);
      } else {
        assert idx'[|idx|] == j;
      }
    }
  }

  lemma ParkOk(s: Sender, sub: seq<Payload>, idx: seq<nat>, p: Payload)
    requires SenderOk(s, sub, idx) && !s.connected
    ensures SenderOk(Park(s, p), sub + [p], idx)
  {
    var r := Park(s, p);
    forall j | 0 <= j < |sub| + 1
      ensures Accounted(r, sub + [p], idx, j)
    {
      if j < |sub| {
        assert Accounted(s, sub, idx, j);
      }
    }
  }

  /** Sending the oldest parked frame. */
  lemma UnparkOk(s: Sender, sub: seq<Payload>, idx: seq<nat>)
    requires SenderOk(s.(connected := false), sub, idx) && s.pending != []
    ensures SenderOk(Transmit(s.(pending := s.pending[1..]), s.pending[0]).(connected := false), sub,
                     idx + [|sub| - |s.pending|])
  {
    NextSeq(|s.wire|);
    var first := |sub| - |s.pending|;
    var r := Transmit(s.(pending := s.pending[1..]), s.pending[0]).(connected := false);
    var idx' := idx + [first];
    forall j | 0 <= j < |sub|
      ensures Accounted(r, sub, idx', j)
    {
      assert Accounted(s.(connected := false), sub, idx, j);
      assert idx'[|idx|] == first;
    }
  }

  lemma {:induction false} FlushOk(s: Sender, sub: seq<Payload>, idx: seq<nat>) returns (idx': seq<nat>)
    requires SenderOk(s.(connected := false), sub, idx)
    ensures SenderOk(Flush(s), sub, idx')
    ensures Flush(s).connected == s.connected && Flush(s).pending == []
    decreases |s.pending|
  {
    if s.pending == [] {
      idx' := idx;
      forall j | 0 <= j < |sub|
        ensures Accounted(s, sub, idx, j)
      {
        assert Accounted(s.(connected := false), sub, idx, j);
      }
    } else {
      UnparkOk(s, sub, idx);
      idx' := FlushOk(Transmit(s.(pending := s.pending[1..]), s.pending[0]), sub, idx + [|sub| - |s.pending|]);
    }
  }

  lemma ReflagOk(s: Sender, connected: bool, sub: seq<Payload>, idx: seq<nat>)
    requires SenderOk(s, sub, idx) && !connected
    ensures SenderOk(s.(connected := connected), sub, idx)
  {
    forall j | 0 <= j < |sub|
      ensures Accounted(s.(connected := connected), sub, idx, j)
    {
      assert Accounted(s, sub, idx, j);
    }
  }

  lemma SenderStepOk(s: Sender, sub: seq<Payload>, idx: seq<nat>, e: SenderEvent) returns (idx': seq<nat>)
    requires SenderOk(s, sub, idx)
    ensures SenderOk(SenderStep(s, e), sub + if e.Submit? then [e.data] else [], idx')
  {
    idx' := idx;
    assert sub + [] == sub;
    match e
    case Submit(p) =>
      if s.connected {
        TransmitOk(s, sub, idx, p);
        idx' := idx + [|sub|];
      } else {
        ParkOk(s, sub, idx, p);
      }
    case Connect =>
      ReflagOk(s, false, sub, idx);
      assert s.(connected := true).(connected := false) == s.(connected := false);
      idx' := FlushOk(s.(connected := true), sub, idx);
    case Disconnect => ReflagOk(s, false, sub, idx);
  }

  /**
   * In every run the frames on the wire are numbered consecutively and are a subsequence of what was submitted; a
   * frame that is neither there nor parked was dropped with at least 64 newer ones behind it.
   */
  lemma {:induction false} SenderOrder(es: seq<SenderEvent>) returns (idx: seq<nat>)
    ensures SenderOk(SenderAfter(es), Submitted(es), idx)
  {
    if es == [] {
      idx := [];
    } else {
      var last := |es| - 1;
      idx := SenderOrder(es[..last]);
      idx := SenderStepOk(SenderAfter(es[..last]), Submitted(es[..last]), idx, es[last]);
    }
  }

  // ---- The receiver ----

  datatype Delivery = Delivery(seqno: u32, data: Payload)

  datatype Receiver = Receiver(next: u32, buffer: map<u32, Payload>, delivered: seq<Delivery>)

  const START: Receiver := Receiver(0, map[], [])

  function Accept(s: Receiver, data: Payload): (r: Receiver)
  {
    var n: int := s.next;
    s.(next := (n + 1) % WRAP, delivered := s.delivered + [Delivery(s.next, data)])
  }

  lemma RemovalShrinks(m: map<u32, Payload>, k: u32)
    requires k in m
    ensures |m - {k}| < |m|
    ensures (m - {k}).Keys == m.Keys - {k}
  {
    assert (m - {k}).Keys == m.Keys - {k};
    assert |m.Keys - {k}| == |m.Keys| - 1;
    assert |m| == |m.Keys| && |m - {k}| == |(m - {k}).Keys|;
  }

  function DrainOne(s: Receiver): (r: Receiver)
    requires s.next in s.buffer
  {
    Accept(s, s.buffer[s.next]).(buffer := s.buffer - {s.next})
  }

  /** Deliver buffered frames for as long as the next one is there. */
  function Drain(s: Receiver): (r: Receiver)
    decreases |s.buffer|
  {
    if s.next !in s.buffer then s
    else
      RemovalShrinks(s.buffer, s.next);
      Drain(DrainOne(s))
  }

  ghost predicate IsLeast(keys: set<u32>, k: u32) { k in keys && forall j :: j in keys ==> k <= j }

  lemma {:induction false} LeastExists(keys: set<u32>)
    requires keys != {}
    ensures exists k :: IsLeast(keys, k)
    decreases |keys|
  {
    var k :| k in keys;
    var rest := keys - {k};
    if rest == {} {
      assert keys == {k};
      assert IsLeast(keys, k);
    } else {
      LeastExists(rest);
      var j :| IsLeast(rest, j);
      assert forall i :: i in keys ==> i == k || i in rest;
      assert IsLeast(keys, if j < k then j else k);
    }
  }

  ghost function Least(keys: set<u32>): (k: u32)
    requires keys != {}
    ensures IsLeast(keys, k)
  {
    LeastExists(keys);
    var k :| IsLeast(keys, k);
    k
  }

  /** An early frame is buffered; a full window first gives up on everything before its smallest entry. */
  ghost function Store(s: Receiver, n: u32, data: Payload): (r: Receiver)
  {
    var t := if |s.buffer| >= WINDOW then s.(next := Least(s.buffer.Keys)) else s;
    t.(buffer := t.buffer[n := data])
  }

  ghost function Receive(s: Receiver, raw: seq<byte>): (r: Receiver)
  {
    if |raw| < 4 then s
    else
      var n, data := Read32(raw), raw[4..];
      if n < s.next then s
      else if n == s.next then Drain(Accept(s, data))
      else Store(s, n, data)
  }

  ghost function Feed(raws: seq<seq<byte>>): (s: Receiver)
  {
    if raws == [] then START else Receive(Feed(raws[..|raws| - 1]), raws[|raws| - 1])
  }

  // ---- What has arrived ----

  type Contents = u32 -> Payload

  /** The frames behind a sequence of arrivals. */
  function Frames(arr: seq<u32>, pay: Contents): (raws: seq<seq<byte>>)
    ensures |raws| == |arr| && forall i :: 0 <= i < |arr| ==> raws[i] == Frame(arr[i], pay(arr[i]))
  {
    seq(|arr|, i requires 0 <= i < |arr| => Frame(arr[i], pay(arr[i])))
  }

  /** No frame number needs the last 32-bit value, so no counter wraps. */
  predicate NoWrap(arr: seq<u32>) { forall i :: 0 <= i < |arr| ==> arr[i] < 0xFFFF_FFFF }

  /** m is the first frame that has not arrived. */
  ghost predicate FirstMissing(arr: seq<u32>, m: u32) { m !in arr && forall j: u32 :: j < m ==> j in arr }

  /** The arrived frames beyond m. */
  function Beyond(arr: seq<u32>, m: u32): (r: set<u32>) { set k | k in arr && k > m }

  /** The first m frames, once each and in order. */
  function Prefix(pay: Contents, m: u32): (r: seq<Delivery>)
    ensures |r| == m as int
  {
    seq(m as int, k requires 0 <= k < m as int => Delivery(k, pay(k)))
  }

  /** The receiver holds exactly what arrived: the gap-free prefix delivered, the rest buffered. */
  ghost predicate Exact(r: Receiver, arr: seq<u32>, pay: Contents) {
    && FirstMissing(arr, r.next) && r.delivered == Prefix(pay, r.next)
    && r.buffer.Keys == Beyond(arr, r.next)
    && forall k :: k in r.buffer ==> r.buffer[k] == pay(k)
  }

  /** While draining: everything below next is delivered, everything else that arrived is buffered. */
  ghost predicate Draining(r: Receiver, arr: seq<u32>, pay: Contents) {
    && (forall j: u32 :: j < r.next ==> j in arr) && r.delivered == Prefix(pay, r.next)
    && (forall k: u32 :: k in r.buffer <==> k in arr && k >= r.next)
    && forall k :: k in r.buffer ==> r.buffer[k] == pay(k)
  }

  lemma PrefixGrows(pay: Contents, m: u32)
    requires m < 0xFFFF_FFFF
    ensures Prefix(pay, m) + [Delivery(m, pay(m))] == Prefix(pay, m + 1)
  {
  }

  lemma DrainOneOk(r: Receiver, arr: seq<u32>, pay: Contents)
    requires NoWrap(arr) && Draining(r, arr, pay) && r.next in r.buffer
    ensures Draining(DrainOne(r), arr, pay)
  {
    assert r.next in arr && r.next < 0xFFFF_FFFF;
    PrefixGrows(pay, r.next);
    assert DrainOne(r).next as int == r.next as int + 1;
  }

  lemma {:induction false} DrainOk(r: Receiver, arr: seq<u32>, pay: Contents)
    requires NoWrap(arr) && Draining(r, arr, pay)
    ensures Exact(Drain(r), arr, pay)
    decreases |r.buffer|
  {
    if r.next in r.buffer {
      RemovalShrinks(r.buffer, r.next);
      DrainOneOk(r, arr, pay);
      DrainOk(DrainOne(r), arr, pay);
    } else {
      assert forall k: u32 :: k in r.buffer <==> k in Beyond(arr, r.next);
    }
  }

  lemma LateOk(r: Receiver, arr: seq<u32>, a: u32, pay: Contents)
    requires Exact(r, arr, pay) && a < r.next
    ensures Exact(r, arr + [a], pay)
  {
    assert Beyond(arr + [a], r.next) == Beyond(arr, r.next);
  }

  lemma DueOk(r: Receiver, arr: seq<u32>, pay: Contents)
    requires Exact(r, arr, pay) && NoWrap(arr + [r.next])
    ensures Exact(Drain(Accept(r, pay(r.next))), arr + [r.next], pay)
  {
    var a, arr' := r.next, arr + [r.next];
    assert arr'[|arr|] == a && a < 0xFFFF_FFFF;
    var t := Accept(r, pay(a));
    PrefixGrows(pay, a);
    assert t.next as int == a as int + 1;
    forall k: u32
      ensures k in t.buffer <==> k in arr' && k >= t.next
    {
      assert k in t.buffer <==> k in Beyond(arr, a);
    }
    DrainOk(t, arr', pay);
  }

  lemma EarlyOk(r: Receiver, arr: seq<u32>, a: u32, pay: Contents)
    requires Exact(r, arr, pay) && a > r.next && |Beyond(arr, r.next)| < WINDOW
    ensures Exact(Store(r, a, pay(a)), arr + [a], pay)
  {
    assert |r.buffer| == |r.buffer.Keys|;
    var t := Store(r, a, pay(a));
    assert t.next == r.next;
    assert t.buffer.Keys == r.buffer.Keys + {a};
    assert Beyond(arr + [a], r.next) == Beyond(arr, r.next) + {a};
  }

  lemma ReceiveFrame(r: Receiver, a: u32, p: Payload)
    ensures Receive(r, Frame(a, p)) ==
            if a < r.next then r else if a == r.next then Drain(Accept(r, p)) else Store(r, a, p)
  {
    ReadWrite32(a, p);
    assert Frame(a, p)[4..] == p;
  }

  /** Whether frame a arrives beyond m with the window already full. */
  predicate Overflows(arr: seq<u32>, m: u32, a: u32) { a > m && |Beyond(arr, m)| >= WINDOW }

  /** No arrival in the sequence finds the window full. */
  ghost predicate Fits(arr: seq<u32>) {
    forall i, m :: 0 <= i < |arr| && FirstMissing(arr[..i], m) ==> !Overflows(arr[..i], m, arr[i])
  }

  lemma FitsPrefix(arr: seq<u32>, n: nat)
    requires Fits(arr) && n <= |arr|
    ensures Fits(arr[..n])
  {
    forall i, m | 0 <= i < n && FirstMissing(arr[..n][..i], m)
      ensures !Overflows(arr[..n][..i], m, arr[..n][i])
    {
      assert arr[..n][..i] == arr[..i];
    }
  }

  /**
   * Whatever the order and however often frames arrive, if no arrival finds the window full the receiver has delivered
   * exactly the longest gap-free prefix of what arrived, once each and in order.
   */
  lemma {:induction false} DeliversGapFreePrefix(arr: seq<u32>, pay: Contents)
    requires NoWrap(arr) && Fits(arr)
    ensures Exact(Feed(Frames(arr, pay)), arr, pay)
    decreases |arr|
  {
    if arr == [] {
      assert Frames(arr, pay) == [];
      assert Beyond(arr, 0) == {} && Prefix(pay, 0) == [];
    } else {
      var n := |arr| - 1;
      var a := arr[n];
      FitsPrefix(arr, n);
      DeliversGapFreePrefix(arr[..n], pay);
      assert Frames(arr, pay)[..n] == Frames(arr[..n], pay);
      assert arr == arr[..n] + [a];
      var r := Feed(Frames(arr[..n], pay));
      ReceiveFrame(r, a, pay(a));
      if a < r.next {
        LateOk(r, arr[..n], a, pay);
      } else if a == r.next {
        DueOk(r, arr[..n], pay);
      } else {
        assert !Overflows(arr[..n], r.next, a);
        EarlyOk(r, arr[..n], a, pay);
      }
    }
  }

  // ---- Frames at most 63 ahead always fit ----

  ghost predicate Close(arr: seq<u32>) {
    forall i, m :: 0 <= i < |arr| && FirstMissing(arr[..i], m) ==> arr[i] as int <= m as int + 63
  }

  lemma {:induction false} MissingExists(arr: seq<u32>, m: u32) returns (r: u32)
    requires NoWrap(arr) && forall j: u32 :: j < m ==> j in arr
    ensures FirstMissing(arr, r)
    decreases 0xFFFF_FFFF - m
  {
    if m !in arr {
      r := m;
    } else {
      assert m < 0xFFFF_FFFF;
      r := MissingExists(arr, m + 1);
    }
  }

  lemma BeyondIsNear(arr: seq<u32>, m: u32, k: u32)
    requires NoWrap(arr) && Close(arr) && FirstMissing(arr, m) && k in Beyond(arr, m)
    ensures k as int <= m as int + 63
  {
    var i :| 0 <= i < |arr| && arr[i] == k;
    assert NoWrap(arr[..i]);
    var m' := MissingExists(arr[..i], 0);
    assert k as int <= m' as int + 63;
    assert forall x :: x in arr[..i] ==> x in arr;
    assert m' <= m;
  }

  lemma {:induction false} RangeSize(s: set<u32>, lo: int, hi: int)
    requires lo <= hi && forall k :: k in s ==> lo < k as int <= hi
    ensures |s| <= hi - lo
    decreases hi - lo
  {
    if lo == hi {
      assert s == {};
    } else {
      var t := set k | k in s && k as int != hi;
      RangeSize(t, lo, hi - 1);
      if 0 <= hi < WRAP {
        assert s <= t + {hi};
        CardSubset(s, t + {hi});
      } else {
        assert s == t;
      }
    }
  }

  lemma {:induction false} CardSubset(s: set<u32>, t: set<u32>)
    requires s <= t
    ensures |s| <= |t|
    decreases |s|
  {
    if s != {} {
      var k :| k in s;
      CardSubset(s - {k}, t - {k});
    }
  }

  lemma CloseFits(arr: seq<u32>)
    requires NoWrap(arr) && Close(arr)
    ensures Fits(arr)
  {
    forall i, m | 0 <= i < |arr| && FirstMissing(arr[..i], m)
      ensures !Overflows(arr[..i], m, arr[i])
    {
      ClosePrefix(arr, i);
      forall k | k in Beyond(arr[..i], m)
        ensures m as int < k as int <= m as int + 63
      {
        BeyondIsNear(arr[..i], m, k);
      }
      RangeSize(Beyond(arr[..i], m), m as int, m as int + 63);
    }
  }

  lemma ClosePrefix(arr: seq<u32>, n: nat)
    requires Close(arr) && n <= |arr|
    ensures Close(arr[..n])
  {
    forall i, m | 0 <= i < n && FirstMissing(arr[..n][..i], m)
      ensures arr[..n][i] as int <= m as int + 63
    {
      assert arr[..n][..i] == arr[..i];
    }
  }

  // ---- A full window loses a frame for good ----

  /** Frame m has been passed over and is nowhere. */
  ghost predicate PassedOver(r: Receiver, m: u32) {
    && r.next > m
    && (forall k :: 0 <= k < |r.delivered| ==> r.delivered[k].seqno != m)
    && forall k :: k in r.buffer ==> m < k < 0xFFFF_FFFF
  }

  lemma {:induction false} DrainPassedOver(r: Receiver, m: u32)
    requires PassedOver(r, m)
    ensures PassedOver(Drain(r), m)
    decreases |r.buffer|
  {
    if r.next in r.buffer {
      RemovalShrinks(r.buffer, r.next);
      assert DrainOne(r).next as int == r.next as int + 1;
      DrainPassedOver(DrainOne(r), m);
    }
  }

  lemma ReceivePassedOver(r: Receiver, a: u32, p: Payload, m: u32)
    requires PassedOver(r, m) && a < 0xFFFF_FFFF
    ensures PassedOver(Receive(r, Frame(a, p)), m)
  {
    ReceiveFrame(r, a, p);
    if a == r.next {
      assert Accept(r, p).next as int == r.next as int + 1;
      DrainPassedOver(Accept(r, p), m);
    }
  }

  lemma OverflowPassesOver(r: Receiver, arr: seq<u32>, a: u32, pay: Contents)
    requires NoWrap(arr + [a]) && Exact(r, arr, pay) && Overflows(arr, r.next, a)
    ensures PassedOver(Receive(r, Frame(a, pay(a))), r.next)
  {
    ReceiveFrame(r, a, pay(a));
    assert |r.buffer| == |r.buffer.Keys|;
    assert (arr + [a])[|arr|] == a;
    forall k | k in r.buffer
      ensures r.next < k < 0xFFFF_FFFF
    {
      assert k in Beyond(arr, r.next);
      var i :| 0 <= i < |arr| && arr[i] == k;
      assert (arr + [a])[i] == k;
    }
    assert Least(r.buffer.Keys) in r.buffer.Keys;
  }

  lemma FeedSplit(arr: seq<u32>, a: u32, pay: Contents)
    ensures Feed(Frames(arr + [a], pay)) == Receive(Feed(Frames(arr, pay)), Frame(a, pay(a)))
  {
    assert Frames(arr + [a], pay)[..|arr|] == Frames(arr, pay);
  }

  lemma FirstOverflow(arr: seq<u32>, m: u32, a: u32, pay: Contents)
    requires NoWrap(arr + [a]) && Fits(arr) && FirstMissing(arr, m) && Overflows(arr, m, a)
    ensures PassedOver(Feed(Frames(arr + [a], pay)), m)
  {
    assert forall i :: 0 <= i < |arr| ==> arr[i] == (arr + [a])[i];
    DeliversGapFreePrefix(arr, pay);
    var r := Feed(Frames(arr, pay));
    assert r.next == m;
    FeedSplit(arr, a, pay);
    OverflowPassesOver(r, arr, a, pay);
  }

  /** After an arrival that finds the window full, the first missing frame is never delivered, even if it arrives. */
  lemma {:induction false} OverflowLosesFrame(arr: seq<u32>, m: u32, a: u32, rest: seq<u32>, pay: Contents)
    requires NoWrap(arr + [a]) && NoWrap(rest) && Fits(arr) && FirstMissing(arr, m) && Overflows(arr, m, a)
    ensures PassedOver(Feed(Frames(arr + [a] + rest, pay)), m)
    decreases |rest|
  {
    if rest == [] {
      assert arr + [a] + rest == arr + [a];
      FirstOverflow(arr, m, a, pay);
    } else {
      var n := |rest| - 1;
      OverflowLosesFrame(arr, m, a, rest[..n], pay);
      var before := arr + [a] + rest[..n];
      assert arr + [a] + rest == before + [rest[n]];
      FeedSplit(before, rest[n], pay);
      ReceivePassedOver(Feed(Frames(before, pay)), rest[n], pay(rest[n]), m);
    }
  }

  /** A frame that was passed over has not been delivered in its place. */
  lemma PassedOverIsInexact(r: Receiver, m: u32, arr: seq<u32>, pay: Contents)
    requires PassedOver(r, m)
    ensures !Exact(r, arr, pay)
  {
    assert Prefix(pay, r.next)[m as int].seqno == m;
  }

  /** The first arrival that finds the window full. */
  lemma {:induction false} FirstFull(arr: seq<u32>) returns (i: nat, m: u32)
    requires !Fits(arr)
    ensures i < |arr| && Fits(arr[..i]) && FirstMissing(arr[..i], m) && Overflows(arr[..i], m, arr[i])
    decreases |arr|
  {
    var n := |arr| - 1;
    if n >= 0 && !Fits(arr[..n]) {
      i, m := FirstFull(arr[..n]);
      assert arr[..n][..i] == arr[..i];
    } else {
      i, m :| 0 <= i < |arr| && FirstMissing(arr[..i], m) && Overflows(arr[..i], m, arr[i]);
      FitsPrefix(arr[..n], i);
      assert arr[..n][..i] == arr[..i];
    }
  }

  /** The window condition is exact: delivery is the gap-free prefix if and only if no arrival finds the window full. */
  lemma DeliversExactly(arr: seq<u32>, pay: Contents)
    requires NoWrap(arr)
    ensures Exact(Feed(Frames(arr, pay)), arr, pay) <==> Fits(arr)
  {
    if Fits(arr) {
      DeliversGapFreePrefix(arr, pay);
    } else {
      var i, m := FirstFull(arr);
      assert arr[..i] + [arr[i]] + arr[i + 1..] == arr;
      assert forall k :: 0 <= k <= i ==> (arr[..i] + [arr[i]])[k] == arr[k];
      OverflowLosesFrame(arr[..i], m, arr[i], arr[i + 1..], pay);
      PassedOverIsInexact(Feed(Frames(arr, pay)), m, arr, pay);
    }
  }

  /** Frames 1 to n. */
  function Ahead(n: nat): (arr: seq<u32>)
    requires n < WRAP
    ensures |arr| == n && forall i :: 0 <= i < n ==> arr[i] as int == i + 1
  {
    if n == 0 then [] else Ahead(n - 1) + [n]
  }

  lemma BeyondOneMore(arr: seq<u32>, a: u32, m: u32)
    requires a > m && a !in arr
    ensures |Beyond(arr + [a], m)| == |Beyond(arr, m)| + 1
  {
    assert Beyond(arr + [a], m) == Beyond(arr, m) + {a};
  }

  lemma {:induction false} AheadSize(n: nat)
    requires n < WRAP
    ensures |Beyond(Ahead(n), 0)| == n
  {
    if n == 0 {
      assert Beyond(Ahead(n), 0) == {};
    } else {
      AheadSize(n - 1);
      BeyondOneMore(Ahead(n - 1), n, 0);
    }
  }

  /** The window can fill: frame 0 is missing, 64 frames after it have arrived, and one more does. */
  lemma WindowOverflows()
    ensures !Fits(Ahead(65)) && NoWrap(Ahead(65))
  {
    var arr := Ahead(65);
    AheadSize(64);
    assert arr[..64] == Ahead(64);
    assert FirstMissing(arr[..64], 0) && Overflows(arr[..64], 0, arr[64]);
  }

  // ---- End to end ----

  function Origin(sub: seq<Payload>, idx: seq<nat>): Contents
  {
    (k: u32) => if (k as int) < |idx| && idx[k] < |sub| then sub[idx[k]] else []
  }

  /**
   * Whatever the network does to the numbered frames, what the receiver delivers is, in order and once each, the
   * frames of the longest gap-free prefix that arrived, and those are a subsequence of what was submitted.
   */
  lemma EndToEnd(es: seq<SenderEvent>, arr: seq<u32>) returns (idx: seq<nat>)
    requires |SenderAfter(es).wire| < WRAP && Fits(arr)
    requires forall i :: 0 <= i < |arr| ==> (arr[i] as int) < |SenderAfter(es).wire|
    ensures SenderOk(SenderAfter(es), Submitted(es), idx)
    ensures var raws := seq(|arr|, i requires 0 <= i < |arr| => SenderAfter(es).wire[arr[i]]);
            Exact(Feed(raws), arr, Origin(Submitted(es), idx))
  {
    idx := SenderOrder(es);
    var wire, pay := SenderAfter(es).wire, Origin(Submitted(es), idx);
    var raws := seq(|arr|, i requires 0 <= i < |arr| => wire[arr[i]]);
    forall i | 0 <= i < |arr|
      ensures raws[i] == Frames(arr, pay)[i]
    {
      var k: int := arr[i];
      assert wire[k] == Frame(k % WRAP, Submitted(es)[idx[k]]);
    }
    assert raws == Frames(arr, pay);
    DeliversGapFreePrefix(arr, pay);
  }

  // ---- The object ----

  /** The session's application-data fields. */
  class DataPlane {
    var connected: bool
    var pending: seq<Payload>
    var sendSeq: u32
    ghost var wire: seq<seq<byte>>
    var recvSeq: u32
    var reorder: map<u32, Payload>
    ghost var delivered: seq<Delivery>

    ghost function Out(): (s: Sender)
      reads this
    {
      Sender(connected, pending, sendSeq, wire)
    }

    ghost function In(): (r: Receiver)
      reads this
    {
      Receiver(recvSeq, reorder, delivered)
    }

    constructor ()
      ensures Out() == SenderAfter([]) && In() == Feed([])
    {
      connected, pending, sendSeq, wire := false, [], 0, [];
      recvSeq, reorder, delivered := 0, map[], [];
    }

    method SendOnStrand(p: Payload)
      modifies `sendSeq, `wire
      ensures Out() == Transmit(old(Out()), p)
    {
      var n: int := sendSeq;
      sendSeq := (n + 1) % WRAP;
      wire := wire + [Frame(n, p)];
    }

    method Send(p: Payload)
      modifies `pending, `sendSeq, `wire
      ensures Out() == SenderStep(old(Out()), Submit(p))
    {
      if !connected {
        if |pending| >= PARK {
          pending := pending[1..];
        }
        pending := pending + [p];
        return;
      }
      SendOnStrand(p);
    }

    method FlushPending()
      modifies `pending, `sendSeq, `wire
      ensures Out() == Flush(old(Out()))
    {
      while pending != []
        invariant connected == old(connected)
        invariant Flush(Out()) == Flush(old(Out()))
        decreases |pending|
      {
        var p := pending[0];
        pending := pending[1..];
        SendOnStrand(p);
      }
    }

    method OnConnected()
      modifies `connected, `pending, `sendSeq, `wire
      ensures Out() == SenderStep(old(Out()), Connect)
    {
      connected := true;
      FlushPending();
    }

    method SmallestBuffered() returns (k: u32)
      requires |reorder| > 0
      ensures k == Least(reorder.Keys)
    {
      assert reorder.Keys != {};
      k :| k in reorder.Keys;
      var rest := reorder.Keys - {k};
      while rest != {}
        invariant k in reorder.Keys && rest <= reorder.Keys
        invariant forall j :: j in reorder.Keys && j !in rest ==> k <= j
        decreases |rest|
      {
        var j :| j in rest;
        rest := rest - {j};
        if j < k {
          k := j;
        }
      }
      assert IsLeast(reorder.Keys, k);
    }

    method DeliverInOrder(raw: seq<byte>)
      modifies `recvSeq, `reorder, `delivered
      ensures In() == Receive(old(In()), raw)
    {
      if |raw| < 4 {
        return;
      }
      var n, data := Read32(raw), raw[4..];
      if n < recvSeq {
        return;
      }
      if n == recvSeq {
        DeliverRun(data);
        return;
      }
      if |reorder| >= WINDOW {
        recvSeq := SmallestBuffered();
      }
      reorder := reorder[n := data];
    }

    /** The frame that was due, and every buffered one it releases. */
    method DeliverRun(data: Payload)
      modifies `recvSeq, `reorder, `delivered
      ensures In() == Drain(Accept(old(In()), data))
    {
      var n: int := recvSeq;
      delivered := delivered + [Delivery(recvSeq, data)];
      recvSeq := (n + 1) % WRAP;
      while recvSeq in reorder
        invariant Drain(In()) == Drain(Accept(old(In()), data))
        decreases |reorder|
      {
        RemovalShrinks(reorder, recvSeq);
        delivered := delivered + [Delivery(recvSeq, reorder[recvSeq])];
        reorder := reorder - {recvSeq};
        n := recvSeq;
        recvSeq := (n + 1) % WRAP;
      }
    }
  }
}
