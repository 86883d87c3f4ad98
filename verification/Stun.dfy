/** STUN messages: the builder, the parser, and the MESSAGE-INTEGRITY check. */
module Stun {
  import opened Bytes

  type TransactionId = s: seq<byte> | |s| == 12 witness [0, 0, 0, 0, 0, 0, 0, 0, 0, 0, 0, 0]
  type Bytes4 = s: seq<byte> | |s| == 4 witness [0, 0, 0, 0]
  type Bytes16 = s: seq<byte> | |s| == 16 witness [0, 0, 0, 0, 0, 0, 0, 0, 0, 0, 0, 0, 0, 0, 0, 0]
  type Digest = s: seq<byte> | |s| == 20 witness [0, 0, 0, 0, 0, 0, 0, 0, 0, 0, 0, 0, 0, 0, 0, 0, 0, 0, 0, 0]

  const COOKIE: u32 := 0x2112_A442
  const COOKIE_BYTES: Bytes4 := [0x21, 0x12, 0xA4, 0x42]

  const USERNAME: u16 := 0x0006
  const MESSAGE_INTEGRITY: u16 := 0x0008
  const ERROR_CODE: u16 := 0x0009
  const UNKNOWN_ATTRIBUTES: u16 := 0x000A
  const CHANNEL_NUMBER: u16 := 0x000C
  const LIFETIME: u16 := 0x000D
  const XOR_PEER_ADDRESS: u16 := 0x0012
  const DATA: u16 := 0x0013
  const REALM: u16 := 0x0014
  const NONCE: u16 := 0x0015
  const XOR_RELAYED_ADDRESS: u16 := 0x0016
  const REQUESTED_TRANSPORT: u16 := 0x0019
  const XOR_MAPPED_ADDRESS: u16 := 0x0020
  const PRIORITY: u16 := 0x0024
  const USE_CANDIDATE: u16 := 0x0025
  const CONNECTION_ID: u16 := 0x002A
  const FINGERPRINT: u16 := 0x8028
  const ICE_CONTROLLED: u16 := 0x8029
  const ICE_CONTROLLING: u16 := 0x802A

  // ---- Addresses ----

  /** What an address string denotes; Text is a string that is neither an IPv4 nor an IPv6 address. */
  datatype Ip = Ip4(octets: Bytes4) | Ip6(bytes: Bytes16) | Text

  datatype Mapped = Mapped(ip: Ip, port: u16)

  function XorWith(s: seq<byte>, key: seq<byte>): (r: seq<byte>)
    requires |s| <= |key|
    ensures |r| == |s| && forall i :: 0 <= i < |s| ==> r[i] == Xor(s[i], key[i])
  {
    seq(|s|, i requires 0 <= i < |s| => Xor(s[i], key[i]))
  }

  lemma XorWithInvolution(s: seq<byte>, key: seq<byte>)
    requires |s| <= |key|
    ensures XorWith(XorWith(s, key), key) == s
  {
    forall i | 0 <= i < |s|
      ensures Xor(Xor(s[i], key[i]), key[i]) == s[i]
    {
      XorInvolution(s[i], key[i]);
    }
  }

  /** A port is masked with the upper half of the cookie. */
  function XorPort(port: u16): (r: seq<byte>)
    ensures |r| == 2
  {
    XorWith(Write16(port), COOKIE_BYTES)
  }

  function EncodeXorAddr(ip: Ip, port: u16, txn: TransactionId): (r: seq<byte>)
  {
    match ip
    case Ip4(a) => [0, 1] + XorPort(port) + XorWith(a, COOKIE_BYTES)
    case Ip6(a) => [0, 2] + XorPort(port) + XorWith(a, COOKIE_BYTES + txn)
    case Text => [0]
  }

  function DecodeXorAddr(s: seq<byte>, txn: TransactionId): (r: Option<Mapped>)
  {
    if |s| < 4 then None
    else
      var port := Read16(XorWith(s[2..4], COOKIE_BYTES));
      if s[1] == 1 && |s| >= 8 then Some(Mapped(Ip4(XorWith(s[4..8], COOKIE_BYTES)), port))
      else if s[1] == 2 && |s| >= 20 then Some(Mapped(Ip6(XorWith(s[4..20], COOKIE_BYTES + txn)), port))
      else None
  }

  /** An address survives the masking, and text that is no address is read as none. */
  lemma XorAddrRoundTrip(ip: Ip, port: u16, txn: TransactionId)
    ensures DecodeXorAddr(EncodeXorAddr(ip, port, txn), txn) == if ip.Text? then None else Some(Mapped(ip, port))
  {
    var s := EncodeXorAddr(ip, port, txn);
    XorWithInvolution(Write16(port), COOKIE_BYTES);
    ReadWrite16(port, []);
    assert Write16(port) + [] == Write16(port);
    match ip
    case Ip4(a) =>
      XorWithInvolution(a, COOKIE_BYTES);
      assert s[2..4] == XorPort(port) && s[4..8] == XorWith(a, COOKIE_BYTES);
    case Ip6(a) =>
      XorWithInvolution(a, COOKIE_BYTES + txn);
      assert s[2..4] == XorPort(port) && s[4..20] == XorWith(a, COOKIE_BYTES + txn);
    case Text =>
  }

  // ---- Attributes on the wire ----

  datatype Attr = Attr(kind: u16, value: seq<byte>)

  function Align(n: nat): (r: nat)
    ensures n <= r < n + 4 && r % 4 == 0
  {
    n + (4 - n % 4) % 4
  }

  lemma AlignShift(p: nat, n: nat)
    requires p % 4 == 0
    ensures (p + 4) % 4 == 0 && Align(p + n) == p + Align(n) && (p + 4 + Align(n)) % 4 == 0
  {
  }

  function AttrHeader(a: Attr): (r: seq<byte>)
    ensures |r| == 4
  {
    Write16(a.kind) + Write16(|a.value| % 0x1_0000)
  }

  function EncodeAttr(a: Attr): (r: seq<byte>)
    ensures |r| == 4 + Align(|a.value|)
  {
    AttrHeader(a) + a.value + Zeros(Align(|a.value|) - |a.value|)
  }

  function Encode(attrs: seq<Attr>): (r: seq<byte>)
  {
    if attrs == [] then [] else EncodeAttr(attrs[0]) + Encode(attrs[1..])
  }

  lemma {:induction false} EncodeAppend(xs: seq<Attr>, ys: seq<Attr>)
    ensures Encode(xs + ys) == Encode(xs) + Encode(ys)
  {
    if xs == [] {
      assert xs + ys == ys;
    } else {
      EncodeAppend(xs[1..], ys);
      assert (xs + ys)[1..] == xs[1..] + ys;
      Assoc(EncodeAttr(xs[0]), Encode(xs[1..]), Encode(ys));
    }
  }

  function Header(kind: u16, length: nat, txn: TransactionId): (r: seq<byte>)
    ensures |r| == 20
  {
    Write16(kind) + Write16(length % 0x1_0000) + Write32(COOKIE) + txn
  }

  function Message(kind: u16, txn: TransactionId, attrs: seq<byte>): (r: seq<byte>)
  {
    Header(kind, |attrs|, txn) + attrs
  }

  // ---- Parsing ----

  datatype Addresses = Addresses(mapped: Option<Mapped>, peer: Option<Mapped>, relayed: Option<Mapped>)

  datatype Checking = Checking(priority: Option<u32>, useCandidate: bool, controlling: Option<u64>,
                               controlled: Option<u64>)

  datatype Relaying = Relaying(lifetime: Option<u32>, connectionId: Option<u32>, data: seq<byte>)

  datatype Texts = Texts(username: Option<seq<byte>>, realm: Option<seq<byte>>, nonce: Option<seq<byte>>)

  datatype Parsed = Parsed(kind: u16, txn: TransactionId, xor: Addresses, ice: Checking, turn: Relaying, texts: Texts,
                           errorCode: Option<u16>, hasIntegrity: bool, hasFingerprint: bool)

  function Blank(kind: u16, txn: TransactionId): (m: Parsed)
  {
    Parsed(kind, txn, Addresses(None, None, None), Checking(None, false, None, None), Relaying(None, None, []),
           Texts(None, None, None), None, false, false)
  }

  function ReadCode(v: seq<byte>): (r: u16)
    requires |v| >= 4
  {
    var hundreds: int := v[2];
    hundreds * 100 + v[3]
  }

  /** What one attribute does to the message being parsed; kinds not listed leave it alone. */
  function Update(m: Parsed, kind: u16, v: seq<byte>): (r: Parsed)
    ensures r.txn == m.txn
  {
    if kind == XOR_MAPPED_ADDRESS then m.(xor := m.xor.(mapped := DecodeXorAddr(v, m.txn)))
    else if kind == XOR_PEER_ADDRESS then m.(xor := m.xor.(peer := DecodeXorAddr(v, m.txn)))
    else if kind == XOR_RELAYED_ADDRESS then m.(xor := m.xor.(relayed := DecodeXorAddr(v, m.txn)))
    else if kind == PRIORITY then (if |v| >= 4 then m.(ice := m.ice.(priority := Some(Read32(v)))) else m)
    else if kind == LIFETIME then (if |v| >= 4 then m.(turn := m.turn.(lifetime := Some(Read32(v)))) else m)
    else if kind == USE_CANDIDATE then m.(ice := m.ice.(useCandidate := true))
    else if kind == ICE_CONTROLLING then (if |v| >= 8 then m.(ice := m.ice.(controlling := Some(Read64(v)))) else m)
    else if kind == ICE_CONTROLLED then (if |v| >= 8 then m.(ice := m.ice.(controlled := Some(Read64(v)))) else m)
    else if kind == ERROR_CODE then (if |v| >= 4 then m.(errorCode := Some(ReadCode(v))) else m)
    else if kind == USERNAME then m.(texts := m.texts.(username := Some(v)))
    else if kind == REALM then m.(texts := m.texts.(realm := Some(v)))
    else if kind == NONCE then m.(texts := m.texts.(nonce := Some(v)))
    else if kind == CONNECTION_ID then (if |v| >= 4 then m.(turn := m.turn.(connectionId := Some(Read32(v)))) else m)
    else if kind == DATA then m.(turn := m.turn.(data := v))
    else if kind == MESSAGE_INTEGRITY then m.(hasIntegrity := true)
    else if kind == FINGERPRINT then m.(hasFingerprint := true)
    else m
  }

  function ParseFrom(s: seq<byte>, offset: nat, end: nat, m: Parsed): (r: Parsed)
    requires end <= |s|
    decreases |s| + 4 - offset
  {
    if offset + 4 > end then m
    else
      var kind, length, start := Read16(s[offset..]), Read16(s[offset + 2..]), offset + 4;
      if start + length > |s| then m
      else ParseFrom(s, Align(start + length), end, Update(m, kind, s[start..start + length]))
  }

  function Parse(s: seq<byte>): (r: Option<Parsed>)
  {
    if |s| < 20 then None
    else if Read32(s[4..]) != COOKIE || 20 + Read16(s[2..]) > |s| then None
    else Some(ParseFrom(s, 20, 20 + Read16(s[2..]), Blank(Read16(s), s[8..20])))
  }

  function UpdateAll(m: Parsed, attrs: seq<Attr>): (r: Parsed)
    decreases |attrs|
  {
    if attrs == [] then m else UpdateAll(Update(m, attrs[0].kind, attrs[0].value), attrs[1..])
  }

  lemma {:induction false} UpdateAllAppend(m: Parsed, attrs: seq<Attr>, a: Attr)
    ensures UpdateAll(m, attrs + [a]) == Update(UpdateAll(m, attrs), a.kind, a.value)
    decreases |attrs|
  {
    if attrs == [] {
      assert attrs + [a] == [a];
      assert [a][1..] == [];
    } else {
      UpdateAllAppend(Update(m, attrs[0].kind, attrs[0].value), attrs[1..], a);
      assert (attrs + [a])[1..] == attrs[1..] + [a];
    }
  }

  lemma FieldsAt(pre: seq<byte>, kind: seq<byte>, length: seq<byte>, v: seq<byte>, rest: seq<byte>)
    requires |kind| == 2 && |length| == 2
    ensures var s := pre + (kind + (length + (v + rest)));
            && s[|pre|..] == kind + (length + (v + rest)) && s[|pre| + 2..] == length + (v + rest)
            && s[|pre| + 4..|pre| + 4 + |v|] == v
  {
  }

  lemma Regroup(pre: seq<byte>, kind: seq<byte>, length: seq<byte>, v: seq<byte>, pad: seq<byte>, post: seq<byte>)
    ensures pre + (kind + length + v + pad) + post == pre + (kind + (length + (v + (pad + post))))
  {
  }

  lemma RawAttrAt(pre: seq<byte>, kind: u16, length: u16, v: seq<byte>, pad: seq<byte>, post: seq<byte>)
    ensures var s := pre + (Write16(kind) + Write16(length) + v + pad) + post;
            && Read16(s[|pre|..]) == kind && Read16(s[|pre| + 2..]) == length
            && s[|pre| + 4..|pre| + 4 + |v|] == v
  {
    Regroup(pre, Write16(kind), Write16(length), v, pad, post);
    FieldsAt(pre, Write16(kind), Write16(length), v, pad + post);
    ReadWrite16(kind, Write16(length) + (v + (pad + post)));
    ReadWrite16(length, v + (pad + post));
  }

  /** The fields of the attribute at a known place in a buffer. */
  lemma AttrAt(pre: seq<byte>, a: Attr, post: seq<byte>)
    requires |a.value| < 0x1_0000
    ensures var s := pre + EncodeAttr(a) + post;
            && Read16(s[|pre|..]) == a.kind && Read16(s[|pre| + 2..]) == |a.value|
            && s[|pre| + 4..|pre| + 4 + |a.value|] == a.value
  {
    var pad := Zeros(Align(|a.value|) - |a.value|);
    assert EncodeAttr(a) == Write16(a.kind) + Write16(|a.value|) + a.value + pad;
    RawAttrAt(pre, a.kind, |a.value|, a.value, pad, post);
  }

  /** Skipping the value and its padding leads to the end of the encoding. */
  lemma NextAttr(pre: seq<byte>, a: Attr)
    requires |pre| % 4 == 0
    ensures Align(|pre| + 4 + |a.value|) == |pre + EncodeAttr(a)| && |pre + EncodeAttr(a)| % 4 == 0
  {
    AlignShift(|pre|, |a.value|);
    AlignShift(|pre| + 4, |a.value|);
  }

  lemma ParseStep(pre: seq<byte>, a: Attr, post: seq<byte>, m: Parsed)
    requires |pre| % 4 == 0 && |a.value| < 0x1_0000
    ensures var s, next := pre + EncodeAttr(a) + post, |pre + EncodeAttr(a)|;
            ParseFrom(s, |pre|, |s|, m) == ParseFrom(s, next, |s|, Update(m, a.kind, a.value)) && next % 4 == 0
  {
    AttrAt(pre, a, post);
    NextAttr(pre, a);
  }

  lemma {:induction false} ParseEncoded(pre: seq<byte>, attrs: seq<Attr>, m: Parsed)
    requires |pre| % 4 == 0 && forall i :: 0 <= i < |attrs| ==> |attrs[i].value| < 0x1_0000
    ensures var s := pre + Encode(attrs); ParseFrom(s, |pre|, |s|, m) == UpdateAll(m, attrs)
    decreases |attrs|
  {
    if attrs != [] {
      var a, post := attrs[0], Encode(attrs[1..]);
      Assoc(pre, EncodeAttr(a), post);
      ParseStep(pre, a, post, m);
      ParseEncoded(pre + EncodeAttr(a), attrs[1..], Update(m, a.kind, a.value));
    }
  }

  lemma ParseHeader(kind: u16, txn: TransactionId, body: seq<byte>)
    requires |body| < 0x1_0000
    ensures var s := Message(kind, txn, body); Parse(s) == Some(ParseFrom(s, 20, |s|, Blank(kind, txn)))
  {
    var s, n := Message(kind, txn, body), |body|;
    assert s == Write16(kind) + (Write16(n) + Write32(COOKIE) + txn + body);
    assert s[2..] == Write16(n) + (Write32(COOKIE) + txn + body);
    assert s[4..] == Write32(COOKIE) + (txn + body);
    assert s[8..20] == txn;
    ReadWrite16(kind, Write16(n) + Write32(COOKIE) + txn + body);
    ReadWrite16(n, Write32(COOKIE) + txn + body);
    ReadWrite32(COOKIE, txn + body);
  }

  /** Parsing a message reads back exactly its attributes, whatever they are. */
  lemma ParseMessage(kind: u16, txn: TransactionId, attrs: seq<Attr>)
    requires |Encode(attrs)| < 0x1_0000
    ensures Parse(Message(kind, txn, Encode(attrs))) == Some(UpdateAll(Blank(kind, txn), attrs))
  {
    ParseHeader(kind, txn, Encode(attrs));
    forall i | 0 <= i < |attrs|
      ensures |attrs[i].value| < 0x1_0000
    {
      ValuesFit(attrs, i);
    }
    ParseEncoded(Header(kind, |Encode(attrs)|, txn), attrs, Blank(kind, txn));
  }

  /** Only as many attributes as fit: a short total bounds every value. */
  lemma {:induction false} ValuesFit(attrs: seq<Attr>, i: nat)
    requires i < |attrs|
    ensures |attrs[i].value| < |Encode(attrs)|
  {
    if i > 0 {
      ValuesFit(attrs[1..], i - 1);
    }
  }

  lemma {:induction false} EncodeAligned(attrs: seq<Attr>)
    ensures |Encode(attrs)| % 4 == 0
  {
    if attrs != [] {
      EncodeAligned(attrs[1..]);
      AlignShift(|Encode(attrs[1..])|, |attrs[0].value|);
      assert |Encode(attrs)| == |Encode(attrs[1..])| + 4 + Align(|attrs[0].value|);
    }
  }
}
