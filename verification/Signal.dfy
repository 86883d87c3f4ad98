/** The signalling blob that carries credentials, flags and candidates. */
module Signal {
  import opened Bytes
  import opened Candidates

  const MAX_CANDIDATES: nat := 256
  const MAX_HOSTNAME: nat := 64

  datatype Signal = Signal(ufrag: seq<byte>, pwd: seq<byte>, flags: u32, cands: seq<Candidate>)

  // ---- Credentials ----

  /** A zero-terminated string in a field of n bytes: cut or padded. */
  function Field(text: seq<byte>, n: nat): (r: seq<byte>)
    ensures |r| == n
  {
    if |text| >= n then text[..n] else text + Zeros(n - |text|)
  }

  /** The string a field holds: the bytes before the first zero. */
  function Text(field: seq<byte>): (r: seq<byte>)
  {
    if field == [] || field[0] == 0 then [] else [field[0]] + Text(field[1..])
  }

  /** Nothing but zeros after the first zero. */
  predicate ZeroPadded(field: seq<byte>) { forall i, j :: 0 <= i < j < |field| && field[i] == 0 ==> field[j] == 0 }

  lemma {:induction false} FieldOfText(field: seq<byte>)
    requires ZeroPadded(field)
    ensures Field(Text(field), |field|) == field && |Text(field)| <= |field|
  {
    if field != [] {
      if field[0] == 0 {
        assert forall j :: 0 < j < |field| ==> field[j] == 0;
      } else {
        FieldOfText(field[1..]);
        assert field == [field[0]] + field[1..];
      }
    }
  }

  // ---- Candidates on the wire ----

  function TypeByte(c: Candidate): (r: byte)
  {
    var kind, transport: int := c.kind % 32, c.transport % 4;
    kind + 32 * transport
  }

  function ToWire(c: Candidate): (w: seq<byte>)
    ensures |w| == 24
  {
    [TypeByte(c), c.family] + Write16(c.port) + Write32(c.priority) + c.addr
  }

  function FromWire(w: seq<byte>): (c: Candidate)
    requires |w| == 24
    ensures c.hostname == [] && c.foundation == ""
  {
    Candidate(w[0] % 32, w[1], Read16(w[2..4]), Read32(w[4..8]), w[8..], [], w[0] / 32 % 4, "")
  }

  /** The enumerations have fewer values than their bit fields. */
  predicate Packs(c: Candidate) { c.kind < 32 && c.transport < 4 }

  function Nameless(c: Candidate): (r: Candidate) { Face(c).(hostname := []) }

  lemma FromToWire(c: Candidate)
    requires Packs(c)
    ensures FromWire(ToWire(c)) == Nameless(c)
  {
    var w := ToWire(c);
    assert w[2..4] == Write16(c.port) + [];
    assert w[4..8] == Write32(c.priority) + [];
    assert w[8..] == c.addr;
    ReadWrite16(c.port, []);
    ReadWrite32(c.priority, []);
  }

  lemma ToFromWire(w: seq<byte>)
    requires |w| == 24 && w[0] < 128
    ensures ToWire(FromWire(w)) == w && Packs(FromWire(w))
  {
    WriteRead16(w[2..4]);
    WriteRead32(w[4..8]);
    assert w == [w[0], w[1]] + w[2..4] + w[4..8] + w[8..];
  }

  function Wires(cs: seq<Candidate>): (s: seq<byte>)
    ensures |s| == 24 * |cs|
  {
    if cs == [] then [] else ToWire(cs[0]) + Wires(cs[1..])
  }

  function ReadWires(n: nat, s: seq<byte>): (cs: seq<Candidate>)
    requires |s| >= 24 * n
    ensures |cs| == n && forall i :: 0 <= i < n ==> cs[i].hostname == [] && cs[i].foundation == ""
  {
    if n == 0 then [] else [FromWire(s[..24])] + ReadWires(n - 1, s[24..])
  }

  function NamelessAll(cs: seq<Candidate>): (r: seq<Candidate>)
    ensures |r| == |cs| && forall i :: 0 <= i < |cs| ==> r[i] == Nameless(cs[i])
  {
    seq(|cs|, i requires 0 <= i < |cs| => Nameless(cs[i]))
  }

  function FaceAll(cs: seq<Candidate>): (r: seq<Candidate>)
    ensures |r| == |cs| && forall i :: 0 <= i < |cs| ==> r[i] == Face(cs[i])
  {
    seq(|cs|, i requires 0 <= i < |cs| => Face(cs[i]))
  }

  lemma ReadFirstWire(w: seq<byte>, n: nat, t: seq<byte>)
    requires |w| == 24 && n > 0 && |t| >= 24 * (n - 1)
    ensures ReadWires(n, w + t) == [FromWire(w)] + ReadWires(n - 1, t)
  {
    assert (w + t)[..24] == w && (w + t)[24..] == t;
  }

  lemma {:induction false} ReadBackWires(cs: seq<Candidate>, rest: seq<byte>)
    requires forall i :: 0 <= i < |cs| ==> Packs(cs[i])
    ensures ReadWires(|cs|, Wires(cs) + rest) == NamelessAll(cs)
  {
    if cs == [] {
      assert NamelessAll(cs) == [];
    } else {
      FromToWire(cs[0]);
      Assoc(ToWire(cs[0]), Wires(cs[1..]), rest);
      ReadFirstWire(ToWire(cs[0]), |cs|, Wires(cs[1..]) + rest);
      ReadBackWires(cs[1..], rest);
      FacesHead(cs);
    }
  }

  /** The reserved bit of every type byte is clear. */
  predicate ReservedClear(n: nat, s: seq<byte>)
    requires |s| >= 24 * n
  {
    forall i :: 0 <= i < n ==> s[24 * i] < 128
  }

  lemma {:induction false} WriteBackWires(n: nat, s: seq<byte>)
    requires |s| >= 24 * n && ReservedClear(n, s)
    ensures Wires(ReadWires(n, s)) == s[..24 * n]
  {
    if n > 0 {
      assert s[24 * 0] < 128;
      ToFromWire(s[..24]);
      assert forall i :: 0 <= i < n - 1 ==> s[24..][24 * i] == s[24 * (i + 1)];
      WriteBackWires(n - 1, s[24..]);
      var cs := ReadWires(n, s);
      assert cs[1..] == ReadWires(n - 1, s[24..]);
      assert s[..24 * n] == s[..24] + s[24..][..24 * (n - 1)];
    }
  }

  // ---- Hostnames ----

  /** A name exactly on the mDNS candidates, of a length the trailer can carry. */
  predicate Named(c: Candidate) {
    if c.kind == HOST_MDNS then 1 <= |c.hostname| <= MAX_HOSTNAME else c.hostname == []
  }

  predicate AllNamed(cs: seq<Candidate>) { forall i :: 0 <= i < |cs| ==> Named(cs[i]) }

  predicate Emits(c: Candidate) { c.kind == HOST_MDNS && c.hostname != [] }

  function NameOf(c: Candidate): (s: seq<byte>)
  {
    if !Emits(c) then []
    else
      var name := c.hostname[..Min(|c.hostname|, MAX_HOSTNAME)];
      Write16(|name|) + name
  }

  function Names(cs: seq<Candidate>): (s: seq<byte>)
  {
    if cs == [] then [] else NameOf(cs[0]) + Names(cs[1..])
  }

  function Emitted(cs: seq<Candidate>): (n: nat)
    ensures n <= |cs|
  {
    if cs == [] then 0 else (if Emits(cs[0]) then 1 else 0) + Emitted(cs[1..])
  }

  function Mdns(cs: seq<Candidate>): (n: nat)
    ensures n <= |cs|
  {
    if cs == [] then 0 else (if cs[0].kind == HOST_MDNS then 1 else 0) + Mdns(cs[1..])
  }

  /** Candidates with their names filled in, and the bytes after the names. */
  datatype Walk = Walk(cands: seq<Candidate>, rest: seq<byte>)

  function Prepend(c: Candidate, w: Option<Walk>): (r: Option<Walk>)
  {
    match w
    case None => None
    case Some(v) => Some(Walk([c] + v.cands, v.rest))
  }

  function ReadNames(cs: seq<Candidate>, s: seq<byte>): (r: Option<Walk>)
    decreases |cs|
  {
    if cs == [] then Some(Walk([], s))
    else if cs[0].kind != HOST_MDNS then Prepend(cs[0], ReadNames(cs[1..], s))
    else if |s| < 2 then None
    else
      var n := Read16(s);
      if n == 0 || n > MAX_HOSTNAME || 2 + n > |s| then None
      else Prepend(cs[0].(hostname := s[2..2 + n]), ReadNames(cs[1..], s[2 + n..]))
  }

  lemma ReadBackStep(c: Candidate, cs: seq<Candidate>, t: seq<byte>)
    requires Named(c)
    ensures ReadNames([Nameless(c)] + cs, NameOf(c) + t) == Prepend(Face(c), ReadNames(cs, t))
  {
    assert ([Nameless(c)] + cs)[1..] == cs;
    if c.kind == HOST_MDNS {
      ReadBackName(c, t);
    } else {
      assert NameOf(c) + t == t;
    }
  }

  lemma FacesHead(cs: seq<Candidate>)
    requires cs != []
    ensures NamelessAll(cs) == [Nameless(cs[0])] + NamelessAll(cs[1..])
    ensures FaceAll(cs) == [Face(cs[0])] + FaceAll(cs[1..])
  {
  }

  lemma {:induction false} ReadBackNames(cs: seq<Candidate>, rest: seq<byte>)
    requires AllNamed(cs)
    ensures ReadNames(NamelessAll(cs), Names(cs) + rest) == Some(Walk(FaceAll(cs), rest))
    decreases |cs|
  {
    if cs == [] {
      assert Names(cs) + rest == rest && FaceAll(cs) == [];
    } else {
      Assoc(NameOf(cs[0]), Names(cs[1..]), rest);
      FacesHead(cs);
      ReadBackNames(cs[1..], rest);
      ReadBackStep(cs[0], NamelessAll(cs[1..]), Names(cs[1..]) + rest);
    }
  }

  lemma ReadBackName(c: Candidate, rest: seq<byte>)
    requires Named(c) && c.kind == HOST_MDNS
    ensures var s, n := NameOf(c) + rest, |c.hostname|;
            |s| >= 2 + n && Read16(s) == n && s[2..2 + n] == c.hostname && s[2 + n..] == rest
  {
    var s := NameOf(c) + rest;
    assert c.hostname[..|c.hostname|] == c.hostname;
    assert s == Write16(|c.hostname|) + (c.hostname + rest);
    ReadWrite16(|c.hostname|, c.hostname + rest);
  }

  /** A name that was read is the name that would be written. */
  lemma WriteBackName(c: Candidate, s: seq<byte>)
    requires c.kind == HOST_MDNS && |s| >= 2 && 1 <= Read16(s) <= MAX_HOSTNAME && 2 + Read16(s) <= |s|
    ensures var d := c.(hostname := s[2..2 + Read16(s)]);
            NameOf(d) + s[2 + Read16(s)..] == s && Named(d) && Emits(d)
  {
    var n := Read16(s);
    var d := c.(hostname := s[2..2 + n]);
    WriteRead16(s[..2]);
    assert Read16(s[..2]) == n;
    assert d.hostname[..Min(|d.hostname|, MAX_HOSTNAME)] == d.hostname;
    assert NameOf(d) == s[..2] + s[2..2 + n];
  }

  /** What reading names gives: the same candidates, named, whose names are the bytes read. */
  ghost predicate ReadsAs(cs: seq<Candidate>, s: seq<byte>, w: Walk) {
    && s == Names(w.cands) + w.rest && AllNamed(w.cands) && |w.cands| == |cs|
    && (forall i :: 0 <= i < |cs| ==> w.cands[i].(hostname := []) == cs[i])
    && Emitted(w.cands) == Mdns(cs)
  }

  lemma ReadsAsStep(c: Candidate, d: Candidate, cs: seq<Candidate>, s: seq<byte>, t: seq<byte>, w: Walk)
    requires ReadsAs(cs, t, w) && Named(d) && d.(hostname := []) == c && s == NameOf(d) + t
    requires Emits(d) <==> c.kind == HOST_MDNS
    ensures ReadsAs([c] + cs, s, Walk([d] + w.cands, w.rest))
  {
    assert ([d] + w.cands)[1..] == w.cands && ([c] + cs)[1..] == cs;
  }

  lemma {:induction false} WriteBackNames(cs: seq<Candidate>, s: seq<byte>)
    requires (forall i :: 0 <= i < |cs| ==> cs[i].hostname == []) && ReadNames(cs, s).Some?
    ensures ReadsAs(cs, s, ReadNames(cs, s).value)
    decreases |cs|
  {
    if cs != [] {
      var c := cs[0];
      assert cs == [c] + cs[1..];
      if c.kind != HOST_MDNS {
        WriteBackNames(cs[1..], s);
        assert s == NameOf(c) + s;
        ReadsAsStep(c, c, cs[1..], s, s, ReadNames(cs[1..], s).value);
      } else {
        var t := s[2 + Read16(s)..];
        WriteBackNames(cs[1..], t);
        WriteBackName(c, s);
        ReadsAsStep(c, c.(hostname := s[2..2 + Read16(s)]), cs[1..], s, t, ReadNames(cs[1..], t).value);
      }
    }
  }

  // ---- The blob ----

  function Trailer(cs: seq<Candidate>): (s: seq<byte>)
  {
    if Emitted(cs) == 0 then [] else Write32(Emitted(cs) % 0x1_0000_0000) + Names(cs)
  }

  /** Flags in the upper half, the candidate count in the lower. */
  function Packed(flags: u32, n: nat): (r: u32)
  {
    var high: int := flags / 0x1_0000;
    high * 0x1_0000 + n % 0x1_0000
  }

  function Serialize(ufrag: seq<byte>, pwd: seq<byte>, flags: u32, cs: seq<Candidate>): (s: seq<byte>)
  {
    Field(ufrag, 8) + Field(pwd, 32) + Write32(Packed(flags, |cs|)) + Wires(cs) + Trailer(cs)
  }

  function ReadTrailer(cs: seq<Candidate>, tail: seq<byte>): (r: Option<seq<Candidate>>)
  {
    if tail == [] then (if Mdns(cs) == 0 then Some(cs) else None)
    else if Mdns(cs) == 0 || |tail| < 4 || Read32(tail) as int != Mdns(cs) then None
    else match ReadNames(cs, tail[4..])
      case None => None
      case Some(w) => if w.rest == [] then Some(w.cands) else None
  }

  function Deserialize(s: seq<byte>): (r: Option<Signal>)
  {
    if |s| < 44 then None
    else
      var packed: int := Read32(s[40..44]);
      var count := packed % 0x1_0000;
      if count > MAX_CANDIDATES || |s| < 44 + 24 * count then None
      else match ReadTrailer(ReadWires(count, s[44..]), s[44 + 24 * count..])
        case None => None
        case Some(cs) => Some(Signal(s[..8], s[8..40], packed - count, cs))
  }

  lemma {:induction false} NamedCounts(cs: seq<Candidate>)
    requires AllNamed(cs)
    ensures Emitted(cs) == Mdns(NamelessAll(cs)) == Mdns(cs)
    ensures Emitted(cs) == 0 ==> FaceAll(cs) == NamelessAll(cs)
  {
    if cs != [] {
      NamedCounts(cs[1..]);
      FacesHead(cs);
    }
  }

  lemma TrailerParts(ds: seq<Candidate>, names: seq<byte>, out: seq<Candidate>)
    requires 0 < Mdns(ds) < 0x1_0000_0000 && ReadNames(ds, names) == Some(Walk(out, []))
    ensures ReadTrailer(ds, Write32(Mdns(ds)) + names) == Some(out)
  {
    ReadWrite32(Mdns(ds), names);
    assert (Write32(Mdns(ds)) + names)[4..] == names;
  }

  lemma ReadBackTrailer(cs: seq<Candidate>)
    requires AllNamed(cs) && |cs| <= MAX_CANDIDATES
    ensures ReadTrailer(NamelessAll(cs), Trailer(cs)) == Some(FaceAll(cs))
  {
    NamedCounts(cs);
    if Emitted(cs) > 0 {
      ReadBackNames(cs, []);
      assert Names(cs) + [] == Names(cs);
      TrailerParts(NamelessAll(cs), Names(cs), FaceAll(cs));
    }
  }

  /** A blob put together from its parts is read as those parts. */
  lemma ReadParts(u: seq<byte>, p: seq<byte>, packed: u32, wires: seq<byte>, tail: seq<byte>, count: nat)
    requires |u| == 8 && |p| == 32 && packed as int % 0x1_0000 == count <= MAX_CANDIDATES && |wires| == 24 * count
    requires ReadTrailer(ReadWires(count, wires + tail), tail).Some?
    ensures Deserialize(u + p + Write32(packed) + wires + tail) ==
            Some(Signal(u, p, packed as int - count, ReadTrailer(ReadWires(count, wires + tail), tail).value))
  {
    var s := u + p + Write32(packed) + wires + tail;
    assert s[40..44] == Write32(packed) + [];
    ReadWrite32(packed, []);
    assert s[44..] == wires + tail;
    assert s[44 + 24 * count..] == tail;
    assert s[..8] == u && s[8..40] == p;
  }

  lemma PackedSplits(flags: u32, n: nat)
    requires n < 0x1_0000
    ensures Packed(flags, n) as int % 0x1_0000 == n && Packed(flags, n) as int - n == flags as int / 0x1_0000 * 0x1_0000
  {
  }

  /** What is serialized is read back: the fields, the upper flags, and the candidates without their local labels. */
  lemma SerializeThenRead(ufrag: seq<byte>, pwd: seq<byte>, flags: u32, cs: seq<Candidate>)
    requires |cs| <= MAX_CANDIDATES && AllNamed(cs) && forall i :: 0 <= i < |cs| ==> Packs(cs[i])
    ensures Deserialize(Serialize(ufrag, pwd, flags, cs)) ==
            Some(Signal(Field(ufrag, 8), Field(pwd, 32), flags / 0x1_0000 * 0x1_0000, FaceAll(cs)))
  {
    PackedSplits(flags, |cs|);
    ReadBackWires(cs, Trailer(cs));
    ReadBackTrailer(cs);
    ReadParts(Field(ufrag, 8), Field(pwd, 32), Packed(flags, |cs|), Wires(cs), Trailer(cs), |cs|);
  }

  /** Every accepted blob names exactly its mDNS candidates. */
  lemma AcceptedIsNamed(s: seq<byte>)
    requires Deserialize(s).Some?
    ensures |Deserialize(s).value.cands| <= MAX_CANDIDATES && AllNamed(Deserialize(s).value.cands)
  {
    Accepted(s);
    var cs, tail := ReadWires(Count(s), s[44..]), s[44 + 24 * Count(s)..];
    if tail == [] {
      NoMdns(cs);
    } else {
      WriteBackNames(cs, tail[4..]);
    }
  }

  lemma {:induction false} NoMdns(cs: seq<Candidate>)
    requires Mdns(cs) == 0
    ensures forall i :: 0 <= i < |cs| ==> cs[i].kind != HOST_MDNS
    ensures Emitted(cs) == 0
  {
    if cs != [] {
      NoMdns(cs[1..]);
      assert cs == [cs[0]] + cs[1..];
    }
  }

  /**
   * The round trip holds exactly for at most 256 candidates with a 1..64 byte name on the mDNS ones and on no other.
   */
  lemma RoundTripExact(ufrag: seq<byte>, pwd: seq<byte>, flags: u32, cs: seq<Candidate>)
    requires forall i :: 0 <= i < |cs| ==> Packs(cs[i])
    ensures Deserialize(Serialize(ufrag, pwd, flags, cs)) ==
            Some(Signal(Field(ufrag, 8), Field(pwd, 32), flags / 0x1_0000 * 0x1_0000, FaceAll(cs)))
            <==> |cs| <= MAX_CANDIDATES && AllNamed(cs)
  {
    var s := Serialize(ufrag, pwd, flags, cs);
    if |cs| <= MAX_CANDIDATES && AllNamed(cs) {
      SerializeThenRead(ufrag, pwd, flags, cs);
    } else if Deserialize(s).Some? {
      AcceptedIsNamed(s);
      if Deserialize(s).value.cands == FaceAll(cs) {
        assert forall i :: 0 <= i < |cs| ==> Named(FaceAll(cs)[i]);
      }
    }
  }

  lemma WriteBackTrailer(cs: seq<Candidate>, tail: seq<byte>)
    requires (forall i :: 0 <= i < |cs| ==> cs[i].hostname == []) && |cs| <= MAX_CANDIDATES
    requires ReadTrailer(cs, tail).Some?
    ensures var ds := ReadTrailer(cs, tail).value; Trailer(ds) == tail && |ds| == |cs| && Wires(ds) == Wires(cs)
  {
    if tail == [] {
      NoMdns(cs);
    } else {
      var w := ReadNames(cs, tail[4..]).value;
      WriteBackNames(cs, tail[4..]);
      CountBack(tail, Mdns(cs), Names(w.cands));
      SameWires(cs, w.cands);
    }
  }

  lemma CountBack(tail: seq<byte>, n: nat, names: seq<byte>)
    requires |tail| >= 4 && Read32(tail) as int == n && tail[4..] == names + []
    ensures Write32(n % 0x1_0000_0000) + names == tail
  {
    WriteRead32(tail[..4]);
    assert Read32(tail[..4]) == Read32(tail);
    assert tail == tail[..4] + tail[4..];
  }

  lemma {:induction false} SameWires(cs: seq<Candidate>, ds: seq<Candidate>)
    requires |cs| == |ds| && forall i :: 0 <= i < |cs| ==> ds[i].(hostname := []) == cs[i]
    ensures Wires(cs) == Wires(ds)
  {
    if cs != [] {
      SameWires(cs[1..], ds[1..]);
    }
  }

  lemma PackedJoins(packed: int)
    requires 0 <= packed < 0x1_0000_0000
    ensures Packed(packed - packed % 0x1_0000, packed % 0x1_0000) == packed
  {
  }

  function Count(s: seq<byte>): (n: nat)
  {
    if |s| < 44 then 0 else Read32(s[40..44]) as int % 0x1_0000
  }

  /** Clear reserved bits and zero-padded credentials. */
  predicate Tidy(s: seq<byte>) {
    && |s| >= 44 + 24 * Count(s) && ReservedClear(Count(s), s[44..])
    && ZeroPadded(s[..8]) && ZeroPadded(s[8..40])
  }

  /** What an accepted blob was read from. */
  lemma Accepted(s: seq<byte>)
    requires Deserialize(s).Some?
    ensures |s| >= 44 + 24 * Count(s) && Count(s) <= MAX_CANDIDATES
    ensures var tail := ReadTrailer(ReadWires(Count(s), s[44..]), s[44 + 24 * Count(s)..]);
            && tail.Some?
            && Deserialize(s).value == Signal(s[..8], s[8..40], Read32(s[40..44]) as int - Count(s), tail.value)
  {
  }

  lemma SerializeParts(s: seq<byte>, g: Signal, packed: u32)
    requires |s| >= 44 && Write32(packed) == s[40..44] && |g.cands| == packed as int % 0x1_0000
    requires g.flags as int == packed as int - |g.cands| && |s| >= 44 + 24 * |g.cands|
    requires Field(Text(g.ufrag), 8) == s[..8] && Field(Text(g.pwd), 32) == s[8..40]
    requires Wires(g.cands) == s[44..][..24 * |g.cands|] && Trailer(g.cands) == s[44 + 24 * |g.cands|..]
    ensures Serialize(Text(g.ufrag), Text(g.pwd), g.flags, g.cands) == s
  {
    PackedJoins(packed);
    Cut(s, 24 * |g.cands|);
  }

  lemma {:induction false} TextHasNoZero(field: seq<byte>)
    ensures 0 !in Text(field)
  {
    if field != [] && field[0] != 0 {
      TextHasNoZero(field[1..]);
    }
  }

  lemma {:induction false} WiresClear(cs: seq<Candidate>, i: nat)
    requires i < |cs|
    ensures Wires(cs)[24 * i] < 128
  {
    if i > 0 {
      WiresClear(cs[1..], i - 1);
    }
  }

  lemma FieldIsPadded(text: seq<byte>, n: nat)
    requires 0 !in text
    ensures ZeroPadded(Field(text, n))
  {
  }

  lemma ClearWires(cs: seq<Candidate>, tail: seq<byte>)
    ensures ReservedClear(|cs|, Wires(cs) + tail)
  {
    var n, w := |cs|, Wires(cs);
    forall i | 0 <= i < n
      ensures (w + tail)[24 * i] < 128
    {
      WiresClear(cs, i);
    }
  }

  lemma Slices(u: seq<byte>, p: seq<byte>, h: seq<byte>, w: seq<byte>, t: seq<byte>)
    requires |u| == 8 && |p| == 32 && |h| == 4
    ensures var s := u + p + h + w + t; s[..8] == u && s[8..40] == p && s[44..] == w + t
  {
  }

  /** Credentials without a zero byte serialize to a tidy blob. */
  lemma SerializedIsTidy(s: seq<byte>, ufrag: seq<byte>, pwd: seq<byte>, flags: u32, cs: seq<Candidate>)
    requires s == Serialize(ufrag, pwd, flags, cs) && 0 !in ufrag && 0 !in pwd && Count(s) == |cs|
    ensures Tidy(s)
  {
    Slices(Field(ufrag, 8), Field(pwd, 32), Write32(Packed(flags, |cs|)), Wires(cs), Trailer(cs));
    FieldIsPadded(ufrag, 8);
    FieldIsPadded(pwd, 32);
    ClearWires(cs, Trailer(cs));
  }

  lemma TidySerializesBack(s: seq<byte>)
    requires Deserialize(s).Some? && Tidy(s)
    ensures var g := Deserialize(s).value; Serialize(Text(g.ufrag), Text(g.pwd), g.flags, g.cands) == s
  {
    Accepted(s);
    var cs, tail := ReadWires(Count(s), s[44..]), s[44 + 24 * Count(s)..];
    WriteBackTrailer(cs, tail);
    WriteBackWires(Count(s), s[44..]);
    FieldOfText(s[..8]);
    FieldOfText(s[8..40]);
    WriteRead32(s[40..44]);
    SerializeParts(s, Deserialize(s).value, Read32(s[40..44]));
  }

  /** An accepted blob is what its contents serialize to exactly when it is tidy. */
  lemma ReadThenSerialize(s: seq<byte>)
    requires Deserialize(s).Some?
    ensures var g := Deserialize(s).value; Serialize(Text(g.ufrag), Text(g.pwd), g.flags, g.cands) == s <==> Tidy(s)
  {
    var g := Deserialize(s).value;
    if Tidy(s) {
      TidySerializesBack(s);
    } else if Serialize(Text(g.ufrag), Text(g.pwd), g.flags, g.cands) == s {
      TextHasNoZero(g.ufrag);
      TextHasNoZero(g.pwd);
      AcceptedCount(s);
      SerializedIsTidy(s, Text(g.ufrag), Text(g.pwd), g.flags, g.cands);
    }
  }

  lemma AcceptedCount(s: seq<byte>)
    requires Deserialize(s).Some?
    ensures |Deserialize(s).value.cands| == Count(s)
  {
    Accepted(s);
    WriteBackTrailer(ReadWires(Count(s), s[44..]), s[44 + 24 * Count(s)..]);
  }

  lemma Cut(s: seq<byte>, n: nat)
    requires |s| >= 44 + n
    ensures s == s[..8] + s[8..40] + s[40..44] + s[44..][..n] + s[44 + n..]
  {
  }

  /** Without mDNS candidates the blob has the fixed size. */
  lemma SizeWithoutMdns(ufrag: seq<byte>, pwd: seq<byte>, flags: u32, cs: seq<Candidate>)
    requires Mdns(cs) == 0
    ensures |Serialize(ufrag, pwd, flags, cs)| == 44 + 24 * |cs|
  {
    NoMdns(cs);
  }

  // ---- The procedures ----

  method SerializeSignal(ufrag: seq<byte>, pwd: seq<byte>, flags: u32, cs: seq<Candidate>) returns (out: seq<byte>)
    ensures out == Serialize(ufrag, pwd, flags, cs)
  {
    var mdns := 0;
    for i := 0 to |cs|
      invariant mdns + Emitted(cs[i..]) == Emitted(cs)
    {
      assert cs[i..][0] == cs[i] && cs[i..][1..] == cs[i + 1..];
      if Emits(cs[i]) {
        mdns := mdns + 1;
      }
    }
    out := AppendWires(Field(ufrag, 8) + Field(pwd, 32) + Write32(Packed(flags, |cs|)), cs);
    if mdns > 0 {
      out := AppendNames(out + Write32(mdns % 0x1_0000_0000), cs);
      Assoc(Field(ufrag, 8) + Field(pwd, 32) + Write32(Packed(flags, |cs|)) + Wires(cs), Write32(mdns % 0x1_0000_0000),
            Names(cs));
    }
  }

  method AppendWires(head: seq<byte>, cs: seq<Candidate>) returns (out: seq<byte>)
    ensures out == head + Wires(cs)
  {
    out := head;
    for i := 0 to |cs|
      invariant out + Wires(cs[i..]) == head + Wires(cs)
    {
      assert cs[i..][0] == cs[i] && cs[i..][1..] == cs[i + 1..];
      Assoc(out, ToWire(cs[i]), Wires(cs[i + 1..]));
      out := out + ToWire(cs[i]);
    }
    assert out + [] == out;
  }

  method AppendNames(head: seq<byte>, cs: seq<Candidate>) returns (out: seq<byte>)
    ensures out == head + Names(cs)
  {
    out := head;
    for i := 0 to |cs|
      invariant out + Names(cs[i..]) == head + Names(cs)
    {
      assert cs[i..][0] == cs[i] && cs[i..][1..] == cs[i + 1..];
      Assoc(out, NameOf(cs[i]), Names(cs[i + 1..]));
      out := out + NameOf(cs[i]);
    }
    assert out + [] == out;
  }

  function PrependAll(cs: seq<Candidate>, w: Option<Walk>): (r: Option<Walk>)
  {
    match w
    case None => None
    case Some(v) => Some(Walk(cs + v.cands, v.rest))
  }

  lemma PrependOne(cs: seq<Candidate>, c: Candidate, w: Option<Walk>)
    ensures PrependAll(cs + [c], w) == PrependAll(cs, Prepend(c, w))
  {
    if w.Some? {
      assert cs + [c] + w.value.cands == cs + ([c] + w.value.cands);
    }
  }

  lemma PrependNone(w: Option<Walk>)
    ensures PrependAll([], w) == w
  {
    if w.Some? {
      assert [] + w.value.cands == w.value.cands;
    }
  }

  lemma {:induction false} WireAt(n: nat, s: seq<byte>, i: nat)
    requires |s| >= 24 * n && i < n
    ensures ReadWires(n, s)[i] == FromWire(s[24 * i..24 * i + 24])
  {
    if i > 0 {
      WireAt(n - 1, s[24..], i - 1);
      assert s[24..][24 * (i - 1)..24 * (i - 1) + 24] == s[24 * i..24 * i + 24];
    }
  }

  lemma MdnsSplit(cs: seq<Candidate>, i: nat)
    requires i < |cs|
    ensures Mdns(cs[i..]) == (if cs[i].kind == HOST_MDNS then 1 else 0) + Mdns(cs[i + 1..])
  {
    assert cs[i..][0] == cs[i] && cs[i..][1..] == cs[i + 1..];
  }

  /** The fixed part, and how many of its candidates need a name. */
  method ReadFixed(s: seq<byte>, count: nat, ghost all: seq<Candidate>) returns (cs: seq<Candidate>, mdns: nat)
    requires |s| >= 44 + 24 * count && |all| == count
    requires forall i :: 0 <= i < count ==> all[i] == FromWire(s[44 + 24 * i..44 + 24 * i + 24])
    ensures cs == all && mdns == Mdns(cs)
  {
    cs, mdns := [], 0;
    for i := 0 to count
      invariant cs == all[..i]
      invariant mdns + Mdns(all[i..]) == Mdns(all)
    {
      var c := FromWire(s[44 + 24 * i..44 + 24 * i + 24]);
      MdnsSplit(all, i);
      cs := cs + [c];
      if c.kind == HOST_MDNS {
        mdns := mdns + 1;
      }
    }
  }

  /** The names, in step with the candidates that need one. */
  method FillNames(cs: seq<Candidate>, s: seq<byte>, start: nat) returns (w: Option<Walk>)
    requires start <= |s|
    ensures w == ReadNames(cs, s[start..])
  {
    var off, out: seq<Candidate> := start, [];
    PrependNone(ReadNames(cs, s[start..]));
    for i := 0 to |cs|
      invariant start <= off <= |s|
      invariant PrependAll(out, ReadNames(cs[i..], s[off..])) == ReadNames(cs, s[start..])
    {
      assert cs[i..][0] == cs[i] && cs[i..][1..] == cs[i + 1..];
      if cs[i].kind != HOST_MDNS {
        PrependOne(out, cs[i], ReadNames(cs[i + 1..], s[off..]));
        out := out + [cs[i]];
      } else {
        if off + 2 > |s| {
          return None;
        }
        var n: nat := Read16(s[off..]);
        if n == 0 || n > MAX_HOSTNAME || off + 2 + n > |s| {
          return None;
        }
        var named := cs[i].(hostname := s[off + 2..off + 2 + n]);
        assert s[off..][2..2 + n] == named.hostname && s[off..][2 + n..] == s[off + 2 + n..];
        PrependOne(out, named, ReadNames(cs[i + 1..], s[off + 2 + n..]));
        out := out + [named];
        off := off + 2 + n;
      }
    }
    assert out + [] == out;
    w := Some(Walk(out, s[off..]));
  }

  method DeserializeSignal(s: seq<byte>) returns (r: Option<Signal>)
    ensures r == Deserialize(s)
  {
    if |s| < 44 {
      return None;
    }
    var packed: int := Read32(s[40..44]);
    var count: nat := packed % 0x1_0000;
    if count > MAX_CANDIDATES || |s| < 44 + 24 * count {
      return None;
    }
    ghost var all := ReadWires(count, s[44..]);
    forall i | 0 <= i < count
      ensures all[i] == FromWire(s[44 + 24 * i..44 + 24 * i + 24])
    {
      WireAt(count, s[44..], i);
      assert s[44..][24 * i..24 * i + 24] == s[44 + 24 * i..44 + 24 * i + 24];
    }
    var cs, mdns := ReadFixed(s, count, all);
    var fixed := 44 + 24 * count;
    if |s| == fixed {
      return if mdns == 0 then Some(Signal(s[..8], s[8..40], packed - count, cs)) else None;
    }
    if mdns == 0 || fixed + 4 > |s| || Read32(s[fixed..]) as int != mdns {
      return None;
    }
    var w := FillNames(cs, s, fixed + 4);
    assert s[fixed..][4..] == s[fixed + 4..];
    if w.None? || w.value.rest != [] {
      return None;
    }
    return Some(Signal(s[..8], s[8..40], packed - count, w.value.cands));
  }
}
