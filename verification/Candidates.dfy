/** ICE candidates, their addresses and foundations, and the priority formulas. */
module Candidates {
  import opened Bytes

  // The enumerations are 8-bit on the wire and unknown values survive parsing, so they stay numbers.
  const HOST: byte := 0
  const SRFLX: byte := 1
  const RELAY: byte := 2
  const PRFLX: byte := 3
  const HOST_MDNS: byte := 4

  const IPV4: byte := 1
  const IPV6: byte := 2

  const UDP: byte := 0
  const TCP_ACTIVE: byte := 1
  const TCP_PASSIVE: byte := 2
  const TCP_SO: byte := 3

  predicate IsTcp(transport: byte) {
    transport == TCP_ACTIVE || transport == TCP_PASSIVE || transport == TCP_SO
  }

  type Addr16 = s: seq<byte> | |s| == 16 witness [0, 0, 0, 0, 0, 0, 0, 0, 0, 0, 0, 0, 0, 0, 0, 0]

  /** Foundations are decimal digits, possibly with a ":p<port>" suffix; what matters is that '|' never occurs. */
  type Foundation = s: string | '|' !in s witness ""
  type Stamp = s: Foundation | s != "" witness "0"

  datatype Candidate = Candidate(
    kind: byte, family: byte, port: u16, priority: u32, addr: Addr16,
    hostname: seq<byte>, transport: byte, foundation: Foundation)

  /** A candidate as both agents see it: foundations are local labels and never travel. */
  function Face(c: Candidate): (r: Candidate) { c.(foundation := "") }

  /** What address_str() distinguishes: a name that is not resolved yet, or the bytes of one family. */
  datatype Address = Named(name: seq<byte>) | V4(octets: seq<byte>) | V6(bytes: seq<byte>)

  datatype Endpoint = Endpoint(address: Address, port: u16)

  function AddressOf(c: Candidate): (a: Address)
  {
    if c.kind == HOST_MDNS && c.hostname != [] then Named(c.hostname)
    else if c.family == IPV4 then V4(c.addr[..4])
    else V6(c.addr)
  }

  function EndpointOf(c: Candidate): (e: Endpoint)
  {
    Endpoint(AddressOf(c), c.port)
  }

  /** The FNV hash behind a foundation, as an arbitrary function of the components it mixes. */
  type FoundationHash = (byte, Address, byte) -> Stamp

  function Stamped(hash: FoundationHash, c: Candidate): (r: Candidate)
    ensures r.foundation != ""
    ensures r == c.(foundation := r.foundation)
    ensures c.foundation != "" ==> r == c
  {
    if c.foundation != "" then c else c.(foundation := hash(c.kind, AddressOf(c), c.transport))
  }

  // ---- Priorities ----

  function TypePreference(kind: byte): (r: nat)
    ensures r <= 126
  {
    if kind == HOST || kind == HOST_MDNS then 126
    else if kind == PRFLX then 110
    else if kind == SRFLX then 100
    else 0
  }

  /** (type << 24) | (preference << 8) | (256 - component); component 0 sets bit 8, which the preference may hold. */
  function ComputePriority(kind: byte, preference: u16, component: byte): (r: u32)
    ensures r < 0x8000_0000
  {
    var pref: int := preference;
    var low: int := if component > 0 then 256 - component else if pref % 2 == 1 then 0 else 256;
    TypePreference(kind) * 0x100_0000 + pref * 0x100 + low
  }

  /** The local preference as it ends up in the number: component 0 sets its lowest bit. */
  function EffectivePreference(preference: u16, component: byte): (r: u16)
  {
    if component == 0 && preference % 2 == 0 then preference + 1 else preference
  }

  /** The type decides first, then the preference, then the component; equal numbers mean all three agree. */
  lemma PriorityOrder(kind: byte, preference: u16, component: byte, kind': byte, preference': u16, component': byte)
    ensures var p, p' := EffectivePreference(preference, component), EffectivePreference(preference', component');
            var n, n' := ComputePriority(kind, preference, component), ComputePriority(kind', preference', component');
            && (TypePreference(kind) > TypePreference(kind') ==> n > n')
            && (TypePreference(kind) == TypePreference(kind') && p > p' ==> n > n')
            && (n == n' <==> TypePreference(kind) == TypePreference(kind') && p == p' && component == component')
  {
  }

  // ---- Candidates at an address ----

  predicate IsIp(a: Address) { (a.V4? && |a.octets| == 4) || (a.V6? && |a.bytes| == 16) }

  /** An address that is neither IPv4 nor IPv6 leaves the candidate as it is; an IPv4 one leaves bytes 4 to 15. */
  function WithAddress(c: Candidate, a: Address): (r: Candidate)
    ensures IsIp(a) && c.kind != HOST_MDNS ==> AddressOf(r) == a
    ensures r == c.(family := r.family, addr := r.addr)
  {
    match a
    case V4(octets) => if |octets| == 4 then c.(family := IPV4, addr := octets + c.addr[4..]) else c
    case V6(bytes) => if |bytes| == 16 then c.(family := IPV6, addr := bytes) else c
    case Named(_) => c
  }

  function CandidateAt(kind: byte, a: Address, port: u16): (r: Candidate)
    ensures r.kind == kind && r.foundation == ""
    ensures IsIp(a) && kind != HOST_MDNS ==> EndpointOf(r) == Endpoint(a, port)
  {
    var zeros: Addr16 := [0, 0, 0, 0, 0, 0, 0, 0, 0, 0, 0, 0, 0, 0, 0, 0];
    WithAddress(Candidate(kind, 0, port, ComputePriority(kind, 65535, 1), zeros, [], UDP, ""), a)
  }

  function HostsAt(found: seq<Address>, port: u16): (r: seq<Candidate>)
    ensures |r| == |found| && forall i :: 0 <= i < |found| ==> r[i] == CandidateAt(HOST, found[i], port)
  {
    seq(|found|, i requires 0 <= i < |found| => CandidateAt(HOST, found[i], port))
  }

  lemma HostsAtAppend(found: seq<Address>, a: Address, port: u16)
    ensures HostsAt(found + [a], port) == HostsAt(found, port) + [CandidateAt(HOST, a, port)]
  {
  }

  function WithoutRelays(cs: seq<Candidate>): (r: seq<Candidate>)
  {
    if cs == [] then []
    else
      var last := |cs| - 1;
      WithoutRelays(cs[..last]) + if cs[last].kind == RELAY then [] else [cs[last]]
  }

  lemma {:induction false} WithoutRelaysExactly(cs: seq<Candidate>, c: Candidate)
    ensures c in WithoutRelays(cs) <==> c in cs && c.kind != RELAY
  {
    if cs != [] {
      var last := |cs| - 1;
      WithoutRelaysExactly(cs[..last], c);
      assert cs == cs[..last] + [cs[last]];
    }
  }

  method DropRelays(cs: seq<Candidate>) returns (kept: seq<Candidate>)
    ensures kept == WithoutRelays(cs)
  {
    kept := [];
    for i := 0 to |cs|
      invariant kept == WithoutRelays(cs[..i])
    {
      assert cs[..i + 1][..i] == cs[..i];
      if cs[i].kind != RELAY {
        kept := kept + [cs[i]];
      }
    }
    assert cs[..|cs|] == cs;
  }

  // ---- Pair priorities ----

  function Min(a: int, b: int): (r: int) { if a < b then a else b }
  function Max(a: int, b: int): (r: int) { if a < b then b else a }

  /** The formula of section 6.1.2.3 of RFC 8445 over the integers. */
  function RfcPairPriority(g: int, d: int): (r: int)
  {
    0x1_0000_0000 * Min(g, d) + 2 * Max(g, d) + if g > d then 1 else 0
  }

  /** pair_priority as computed, in 64 bits. */
  function PairPriority(localPriority: u32, remotePriority: u32, controlling: bool): (r: u64)
  {
    var g := if controlling then localPriority else remotePriority;
    var d := if controlling then remotePriority else localPriority;
    RfcPairPriority(g, d) % 0x1_0000_0000_0000_0000
  }

  /** The 64-bit result is the formula exactly when the two priorities are not both the largest 32-bit value. */
  lemma PairPriorityExact(l: u32, r: u32, controlling: bool)
    ensures PairPriority(l, r, controlling) ==
            (if controlling then RfcPairPriority(l, r) else RfcPairPriority(r, l)) <==>
            !(l == 0xFFFF_FFFF && r == 0xFFFF_FFFF)
  {
    var g: int := if controlling then l else r;
    var d: int := if controlling then r else l;
    var f := RfcPairPriority(g, d);
    if Min(g, d) <= 0xFFFF_FFFE {
      assert f < 0x1_0000_0000_0000_0000;
    }
  }

  /** Two agents in opposite roles give a pair and its mirror the same number, whatever the priorities. */
  lemma PairPriorityMirror(l: u32, r: u32, controlling: bool)
    ensures PairPriority(l, r, controlling) == PairPriority(r, l, !controlling)
  {
  }

  /** The carry of twice a maximum above 2^31 makes up for a minimum one smaller. */
  predicate Collide(g: int, d: int, g': int, d': int) {
    Min(g', d') == Min(g, d) + 1 && Max(g, d) == Max(g', d') + 0x8000_0000 && (g > d <==> g' > d')
  }

  /** The one value that does not fit 64 bits comes out as that of a small pair. */
  predicate Wraps(g: int, d: int, g': int, d': int) {
    g == 0xFFFF_FFFF && d == 0xFFFF_FFFF && g' == 0 && d' == 0x7FFF_FFFF
  }

  predicate Shares(g: int, d: int, g': int, d': int) {
    || (g == g' && d == d')
    || Collide(g, d, g', d') || Collide(g', d', g, d)
    || Wraps(g, d, g', d') || Wraps(g', d', g, d)
  }

  lemma FormulaCollision(g: u32, d: u32, g': u32, d': u32)
    ensures RfcPairPriority(g, d) == RfcPairPriority(g', d') <==>
            (g == g' && d == d') || Collide(g, d, g', d') || Collide(g', d', g, d)
  {
  }

  lemma WrappedValue(g: u32, d: u32)
    ensures RfcPairPriority(g, d) % 0x1_0000_0000_0000_0000 ==
            if g == 0xFFFF_FFFF && d == 0xFFFF_FFFF then 0xFFFF_FFFE else RfcPairPriority(g, d)
  {
    PairPriorityExact(g, d, true);
  }

  lemma SmallValue(g: u32, d: u32)
    ensures RfcPairPriority(g, d) == 0xFFFF_FFFE <==> g == 0 && d == 0x7FFF_FFFF
  {
  }

  /** Exactly when two pairs get the same number, for all 32-bit priorities. */
  lemma PairPriorityCollision(l: u32, r: u32, l': u32, r': u32)
    ensures PairPriority(l, r, true) == PairPriority(l', r', true) <==> Shares(l, r, l', r')
    ensures PairPriority(l, r, false) == PairPriority(l', r', false) <==> Shares(r, l, r', l')
  {
    SharesExactly(l, r, l', r');
    SharesExactly(r, l, r', l');
  }

  lemma SharesExactly(g: u32, d: u32, g': u32, d': u32)
    ensures PairPriority(g, d, true) == PairPriority(g', d', true) <==> Shares(g, d, g', d')
  {
    WrappedValue(g, d);
    WrappedValue(g', d');
    SmallValue(g, d);
    SmallValue(g', d');
    FormulaCollision(g, d, g', d');
  }

  lemma FormulaOrder(g: u32, d: u32, g': u32, d': u32)
    requires g <= 0x8000_0000 && d <= 0x8000_0000 && g' <= 0x8000_0000 && d' <= 0x8000_0000
    ensures Min(g, d) > Min(g', d') ==> RfcPairPriority(g, d) > RfcPairPriority(g', d')
    ensures Min(g, d) == Min(g', d') && Max(g, d) > Max(g', d') ==> RfcPairPriority(g, d) > RfcPairPriority(g', d')
    ensures Shares(g, d, g', d') ==> g == g' && d == d'
  {
  }

  /** Up to 2^31 the number orders pairs by minimum, then maximum, then which side is larger, and never collides. */
  lemma PairPriorityLexicographic(l: u32, r: u32, l': u32, r': u32, controlling: bool)
    requires l <= 0x8000_0000 && r <= 0x8000_0000 && l' <= 0x8000_0000 && r' <= 0x8000_0000
    ensures Min(l, r) > Min(l', r') ==> PairPriority(l, r, controlling) > PairPriority(l', r', controlling)
    ensures Min(l, r) == Min(l', r') && Max(l, r) > Max(l', r') ==>
              PairPriority(l, r, controlling) > PairPriority(l', r', controlling)
    ensures PairPriority(l, r, controlling) == PairPriority(l', r', controlling) <==> l == l' && r == r'
  {
    WrappedValue(l, r);
    WrappedValue(r, l);
    WrappedValue(l', r');
    WrappedValue(r', l');
    FormulaOrder(l, r, l', r');
    FormulaOrder(r, l, r', l');
    PairPriorityCollision(l, r, l', r');
  }

  /** The bound is the best one: every priority above it shares a number with another pair. */
  lemma CollisionAboveBound(p: u32)
    requires p > 0x8000_0000
    ensures PairPriority(p, 0, false) == PairPriority(p as int - 0x8000_0000, 1, false)
  {
    assert Collide(0, p as int, 1, p as int - 0x8000_0000);
    PairPriorityCollision(p, 0, p as int - 0x8000_0000, 1);
  }
}
