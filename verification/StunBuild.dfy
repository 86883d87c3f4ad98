/** The builder calls, what the parser makes of the messages they build, and the MESSAGE-INTEGRITY check. */
module StunBuild {
  import opened Bytes
  import opened Stun

  /** HMAC-SHA1 and CRC-32, as arbitrary functions. */
  datatype Crypto = Crypto(mac: (seq<byte>, seq<byte>) -> Digest, crc: seq<byte> -> u32)

  datatype Call =
    | Username(text: seq<byte>)
    | Priority(value: u32)
    | UseCandidate
    | IceControlling(tieBreaker: u64)
    | IceControlled(tieBreaker: u64)
    | XorPeer(ip: Ip, port: u16)
    | XorRelayed(ip: Ip, port: u16)
    | ErrorCode(code: u16, reason: seq<byte>)
    | Payload(bytes: seq<byte>)
    | ChannelNumber(channel: u16)
    | RequestedTransport(protocol: byte)
    | Lifetime(seconds: u32)
    | Realm(text: seq<byte>)
    | Nonce(text: seq<byte>)
    | ConnectionId(id: u32)
    | PaddingTo(target: nat)
    | Integrity(key: seq<byte>)
    | Fingerprint

  // ---- Building ----

  /** The bytes a MESSAGE-INTEGRITY signs: everything so far, under a length that already counts it. */
  function Signed(kind: u16, txn: TransactionId, attrs: seq<byte>): (r: seq<byte>)
  {
    Header(kind, |attrs| + 24, txn) + attrs
  }

  function Fingerprinted(kind: u16, txn: TransactionId, attrs: seq<byte>): (r: seq<byte>)
  {
    Header(kind, |attrs| + 8, txn) + attrs
  }

  function FingerprintValue(crc: u32): (r: seq<byte>)
    ensures |r| == 4
  {
    XorWith(Write32(crc), [0x53, 0x54, 0x55, 0x4E])
  }

  /** The length of the filler value, if one is added. */
  function FillerLength(size: nat, target: nat): (r: Option<nat>)
  {
    var cur, aligned := 20 + size, target / 4 * 4;
    if target < cur + 4 || aligned < cur + 4 || aligned - cur - 4 > 0xFFFF then None else Some(aligned - cur - 4)
  }

  function PlainAttr(c: Call, txn: TransactionId): (a: Attr)
    requires !c.PaddingTo? && !c.Integrity? && !c.Fingerprint?
  {
    match c
    case Username(t) => Attr(USERNAME, t)
    case Priority(v) => Attr(PRIORITY, Write32(v))
    case UseCandidate => Attr(USE_CANDIDATE, [])
    case IceControlling(tb) => Attr(ICE_CONTROLLING, Write64(tb))
    case IceControlled(tb) => Attr(ICE_CONTROLLED, Write64(tb))
    case XorPeer(ip, port) => Attr(XOR_PEER_ADDRESS, EncodeXorAddr(ip, port, txn))
    case XorRelayed(ip, port) => Attr(XOR_RELAYED_ADDRESS, EncodeXorAddr(ip, port, txn))
    case ErrorCode(code, reason) => Attr(ERROR_CODE, [0, 0, code / 100 % 0x100, code % 100] + reason)
    case Payload(b) => Attr(DATA, b)
    case ChannelNumber(n) => Attr(CHANNEL_NUMBER, Write16(n) + [0, 0])
    case RequestedTransport(p) => Attr(REQUESTED_TRANSPORT, [p, 0, 0, 0])
    case Lifetime(v) => Attr(LIFETIME, Write32(v))
    case Realm(t) => Attr(REALM, t)
    case Nonce(t) => Attr(NONCE, t)
    case ConnectionId(v) => Attr(CONNECTION_ID, Write32(v))
  }

  /** The attributes one call adds after those already encoded. */
  function AttrsOf(x: Crypto, kind: u16, txn: TransactionId, prior: seq<byte>, c: Call): (r: seq<Attr>)
  {
    match c
    case PaddingTo(target) =>
      (match FillerLength(|prior|, target)
       case None => []
       case Some(n) => [Attr(UNKNOWN_ATTRIBUTES, Zeros(n))])
    case Integrity(key) => [Attr(MESSAGE_INTEGRITY, x.mac(key, Signed(kind, txn, prior)))]
    case Fingerprint => [Attr(FINGERPRINT, FingerprintValue(x.crc(Fingerprinted(kind, txn, prior))))]
    case _ => [PlainAttr(c, txn)]
  }

  function Collected(x: Crypto, kind: u16, txn: TransactionId, calls: seq<Call>): (r: seq<Attr>)
  {
    if calls == [] then []
    else
      var before := Collected(x, kind, txn, calls[..|calls| - 1]);
      before + AttrsOf(x, kind, txn, Encode(before), calls[|calls| - 1])
  }

  function Body(x: Crypto, kind: u16, txn: TransactionId, calls: seq<Call>): (r: seq<byte>)
  {
    Encode(Collected(x, kind, txn, calls))
  }

  function Built(x: Crypto, kind: u16, txn: TransactionId, calls: seq<Call>): (r: seq<byte>)
  {
    Message(kind, txn, Body(x, kind, txn, calls))
  }

  // ---- What the calls mean ----

  /** What a reader should learn from one call, without reference to the wire. */
  function Assign(m: Parsed, c: Call): (r: Parsed)
  {
    match c
    case Username(t) => m.(texts := m.texts.(username := Some(t)))
    case Priority(v) => m.(ice := m.ice.(priority := Some(v)))
    case UseCandidate => m.(ice := m.ice.(useCandidate := true))
    case IceControlling(tb) => m.(ice := m.ice.(controlling := Some(tb)))
    case IceControlled(tb) => m.(ice := m.ice.(controlled := Some(tb)))
    case XorPeer(ip, port) => m.(xor := m.xor.(peer := if ip.Text? then None else Some(Mapped(ip, port))))
    case XorRelayed(ip, port) => m.(xor := m.xor.(relayed := if ip.Text? then None else Some(Mapped(ip, port))))
    case ErrorCode(code, _) => m.(errorCode := Some(code / 100 % 0x100 * 100 + code % 100))
    case Payload(b) => m.(turn := m.turn.(data := b))
    case Lifetime(v) => m.(turn := m.turn.(lifetime := Some(v)))
    case Realm(t) => m.(texts := m.texts.(realm := Some(t)))
    case Nonce(t) => m.(texts := m.texts.(nonce := Some(t)))
    case ConnectionId(v) => m.(turn := m.turn.(connectionId := Some(v)))
    case Integrity(_) => m.(hasIntegrity := true)
    case Fingerprint => m.(hasFingerprint := true)
    case ChannelNumber(_) => m
    case RequestedTransport(_) => m
    case PaddingTo(_) => m
  }

  function AssignAll(m: Parsed, calls: seq<Call>): (r: Parsed)
  {
    if calls == [] then m else Assign(AssignAll(m, calls[..|calls| - 1]), calls[|calls| - 1])
  }

  lemma ReadBack32(v: u32)
    ensures Read32(Write32(v)) == v
  {
    ReadWrite32(v, []);
    assert Write32(v) + [] == Write32(v);
  }

  lemma ReadBack64(v: u64)
    ensures Read64(Write64(v)) == v
  {
    ReadWrite64(v, []);
    assert Write64(v) + [] == Write64(v);
  }

  lemma NumberIsAssign(m: Parsed, c: Call)
    requires c.Priority? || c.Lifetime? || c.ConnectionId? || c.IceControlling? || c.IceControlled?
    ensures var a := PlainAttr(c, m.txn); Update(m, a.kind, a.value) == Assign(m, c)
  {
    match c
    case Priority(v) => ReadBack32(v);
    case Lifetime(v) => ReadBack32(v);
    case ConnectionId(v) => ReadBack32(v);
    case IceControlling(tb) => ReadBack64(tb);
    case IceControlled(tb) => ReadBack64(tb);
  }

  lemma AddressIsAssign(m: Parsed, c: Call)
    requires c.XorPeer? || c.XorRelayed?
    ensures var a := PlainAttr(c, m.txn); Update(m, a.kind, a.value) == Assign(m, c)
  {
    XorAddrRoundTrip(c.ip, c.port, m.txn);
  }

  lemma UpdateIsAssign(m: Parsed, c: Call)
    requires !c.PaddingTo? && !c.Integrity? && !c.Fingerprint?
    ensures var a := PlainAttr(c, m.txn); Update(m, a.kind, a.value) == Assign(m, c)
  {
    if c.Priority? || c.Lifetime? || c.ConnectionId? || c.IceControlling? || c.IceControlled? {
      NumberIsAssign(m, c);
    } else if c.XorPeer? || c.XorRelayed? {
      AddressIsAssign(m, c);
    }
  }

  lemma CallIsAssign(x: Crypto, kind: u16, prior: seq<byte>, m: Parsed, c: Call)
    ensures var more := AttrsOf(x, kind, m.txn, prior, c);
            || (more == [] && Assign(m, c) == m)
            || (|more| == 1 && Update(m, more[0].kind, more[0].value) == Assign(m, c))
  {
    if !c.PaddingTo? && !c.Integrity? && !c.Fingerprint? {
      UpdateIsAssign(m, c);
    }
  }

  lemma CallAssigns(x: Crypto, kind: u16, txn: TransactionId, attrs: seq<Attr>, m: Parsed, c: Call)
    requires UpdateAll(m, attrs).txn == txn
    ensures UpdateAll(m, attrs + AttrsOf(x, kind, txn, Encode(attrs), c)) == Assign(UpdateAll(m, attrs), c)
  {
    var more := AttrsOf(x, kind, txn, Encode(attrs), c);
    CallIsAssign(x, kind, Encode(attrs), UpdateAll(m, attrs), c);
    if more == [] {
      assert attrs + more == attrs;
    } else {
      assert more == [more[0]];
      UpdateAllAppend(m, attrs, more[0]);
    }
  }

  lemma {:induction false} CallsAssign(x: Crypto, kind: u16, txn: TransactionId, calls: seq<Call>)
    ensures UpdateAll(Blank(kind, txn), Collected(x, kind, txn, calls)) == AssignAll(Blank(kind, txn), calls)
    ensures AssignAll(Blank(kind, txn), calls).txn == txn
  {
    if calls != [] {
      var last := |calls| - 1;
      CallsAssign(x, kind, txn, calls[..last]);
      CallAssigns(x, kind, txn, Collected(x, kind, txn, calls[..last]), Blank(kind, txn), calls[last]);
    }
  }

  /** Parsing what any sequence of calls built gives exactly what the calls mean; of repeated kinds the last counts. */
  lemma BuildThenParse(x: Crypto, kind: u16, txn: TransactionId, calls: seq<Call>)
    requires |Body(x, kind, txn, calls)| < 0x1_0000
    ensures Parse(Built(x, kind, txn, calls)) == Some(AssignAll(Blank(kind, txn), calls))
  {
    ParseMessage(kind, txn, Collected(x, kind, txn, calls));
    CallsAssign(x, kind, txn, calls);
  }

  // ---- Calls of different kinds ----

  predicate SameKind(c: Call, d: Call) {
    match c
    case Username(_) => d.Username?
    case Priority(_) => d.Priority?
    case UseCandidate => d.UseCandidate?
    case IceControlling(_) => d.IceControlling?
    case IceControlled(_) => d.IceControlled?
    case XorPeer(_, _) => d.XorPeer?
    case XorRelayed(_, _) => d.XorRelayed?
    case ErrorCode(_, _) => d.ErrorCode?
    case Payload(_) => d.Payload?
    case ChannelNumber(_) => d.ChannelNumber?
    case RequestedTransport(_) => d.RequestedTransport?
    case Lifetime(_) => d.Lifetime?
    case Realm(_) => d.Realm?
    case Nonce(_) => d.Nonce?
    case ConnectionId(_) => d.ConnectionId?
    case PaddingTo(_) => d.PaddingTo?
    case Integrity(_) => d.Integrity?
    case Fingerprint => d.Fingerprint?
  }

  /** The message carries the call's argument. Error codes carry their hundreds in one byte. */
  predicate Recovered(m: Parsed, c: Call) {
    match c
    case Username(t) => m.texts.username == Some(t)
    case Priority(v) => m.ice.priority == Some(v)
    case UseCandidate => m.ice.useCandidate
    case IceControlling(tb) => m.ice.controlling == Some(tb)
    case IceControlled(tb) => m.ice.controlled == Some(tb)
    case XorPeer(ip, port) => m.xor.peer == if ip.Text? then None else Some(Mapped(ip, port))
    case XorRelayed(ip, port) => m.xor.relayed == if ip.Text? then None else Some(Mapped(ip, port))
    case ErrorCode(code, _) => m.errorCode.Some? && (m.errorCode.value == code <==> code < 25600)
    case Payload(b) => m.turn.data == b
    case Lifetime(v) => m.turn.lifetime == Some(v)
    case Realm(t) => m.texts.realm == Some(t)
    case Nonce(t) => m.texts.nonce == Some(t)
    case ConnectionId(v) => m.turn.connectionId == Some(v)
    case Integrity(_) => m.hasIntegrity
    case Fingerprint => m.hasFingerprint
    case _ => true
  }

  lemma AssignRecovers(m: Parsed, c: Call)
    ensures Recovered(Assign(m, c), c)
  {
  }

  lemma AssignKeeps(m: Parsed, c: Call, d: Call)
    requires !SameKind(c, d)
    ensures Recovered(Assign(m, d), c) == Recovered(m, c)
  {
  }

  lemma {:induction false} AssignAllRecovers(m: Parsed, calls: seq<Call>, i: nat)
    requires i < |calls| && forall j :: i < j < |calls| ==> !SameKind(calls[i], calls[j])
    ensures Recovered(AssignAll(m, calls), calls[i])
  {
    var last := |calls| - 1;
    if i == last {
      AssignRecovers(AssignAll(m, calls[..last]), calls[i]);
    } else {
      AssignAllRecovers(m, calls[..last], i);
      AssignKeeps(AssignAll(m, calls[..last]), calls[i], calls[last]);
    }
  }

  /** With no later call of its kind, every call's argument is read back. */
  lemma EveryAttributeRecovered(x: Crypto, kind: u16, txn: TransactionId, calls: seq<Call>, i: nat)
    requires |Body(x, kind, txn, calls)| < 0x1_0000
    requires i < |calls| && forall j :: i < j < |calls| ==> !SameKind(calls[i], calls[j])
    ensures Parse(Built(x, kind, txn, calls)).Some? && Recovered(Parse(Built(x, kind, txn, calls)).value, calls[i])
  {
    BuildThenParse(x, kind, txn, calls);
    AssignAllRecovers(Blank(kind, txn), calls, i);
  }

  lemma FillerArithmetic(size: nat, target: nat)
    requires size % 4 == 0 && 20 + size + 4 <= target && target / 4 * 4 - 20 - size - 4 <= 0xFFFF
    ensures FillerLength(size, target).Some?
    ensures 20 + size + 4 + Align(FillerLength(size, target).value) == target / 4 * 4
  {
  }

  lemma AddsTo(x: Crypto, kind: u16, txn: TransactionId, calls: seq<Call>, c: Call, a: Attr)
    requires AttrsOf(x, kind, txn, Body(x, kind, txn, calls), c) == [a]
    ensures |Body(x, kind, txn, calls + [c])| == |Body(x, kind, txn, calls)| + |EncodeAttr(a)|
  {
    CollectedStep(x, kind, txn, calls, c);
    EncodeAppend(Collected(x, kind, txn, calls), [a]);
    assert [a][1..] == [];
    assert Encode([a]) == EncodeAttr(a) + [];
  }

  lemma FillerAbsent(size: nat, target: nat)
    requires size % 4 == 0 && !(20 + size + 4 <= target && target / 4 * 4 - 20 - size - 4 <= 0xFFFF)
    ensures FillerLength(size, target).None?
  {
  }

  /** Padding brings the message to the target rounded down to a multiple of four exactly when one filler can. */
  lemma PaddingReachesTarget(x: Crypto, kind: u16, txn: TransactionId, calls: seq<Call>, target: nat)
    ensures var size := |Built(x, kind, txn, calls)|;
            |Built(x, kind, txn, calls + [PaddingTo(target)])| ==
            if size + 4 <= target && target / 4 * 4 - size - 4 <= 0xFFFF then target / 4 * 4 else size
  {
    var body := Body(x, kind, txn, calls);
    EncodeAligned(Collected(x, kind, txn, calls));
    if 20 + |body| + 4 <= target && target / 4 * 4 - 20 - |body| - 4 <= 0xFFFF {
      FillerArithmetic(|body|, target);
      var n := FillerLength(|body|, target).value;
      AddsTo(x, kind, txn, calls, PaddingTo(target), Attr(UNKNOWN_ATTRIBUTES, Zeros(n)));
    } else {
      FillerAbsent(|body|, target);
      CollectedStep(x, kind, txn, calls, PaddingTo(target));
      assert Collected(x, kind, txn, calls + [PaddingTo(target)]) == Collected(x, kind, txn, calls);
    }
  }

  // ---- Integrity ----

  /** Where the walk ends: past the last attribute, at a MESSAGE-INTEGRITY, or at a header outside the buffer. */
  datatype Search = Absent | Found(at: nat) | Outside

  function FindIntegrity(raw: seq<byte>, offset: nat, end: nat): (r: Search)
    ensures r.Found? ==> offset <= r.at && r.at + 4 <= |raw|
    decreases end + 4 - offset
  {
    if offset + 4 > end then Absent
    else if offset + 4 > |raw| then Outside
    else if Read16(raw[offset..]) == MESSAGE_INTEGRITY then Found(offset)
    else FindIntegrity(raw, Align(offset + 4 + Read16(raw[offset + 2..])), end)
  }

  function IntegrityAt(raw: seq<byte>): (r: Search)
  {
    if |raw| < 44 then Absent else FindIntegrity(raw, 20, 20 + Read16(raw[2..]))
  }

  /** The bytes the check signs again: up to the attribute, under the rewritten length. */
  function Reassembled(raw: seq<byte>, at: nat): (r: seq<byte>)
    requires 20 <= at <= |raw|
  {
    raw[..2] + Write16((at + 4) % 0x1_0000) + raw[4..20] + raw[20..at]
  }

  predicate Matches(x: Crypto, raw: seq<byte>, at: nat, key: seq<byte>)
    requires 20 <= at && at + 24 <= |raw|
  {
    x.mac(key, Reassembled(raw, at)) == raw[at + 4..at + 24]
  }

  /** What the check comes to; `PastEnd` is a read of bytes that are not in the buffer. */
  datatype Verdict = Accepted | Rejected | PastEnd

  function Verify(x: Crypto, raw: seq<byte>, key: seq<byte>): (v: Verdict)
  {
    match IntegrityAt(raw)
    case Absent => Rejected
    case Outside => PastEnd
    case Found(at) =>
      if at + 24 > |raw| then PastEnd
      else if Matches(x, raw, at, key) then Accepted
      else Rejected
  }

  // ---- When the check stays inside the buffer ----

  /** On a declared length that fits, which parsing demands, every header the walk reads is inside. */
  lemma {:induction false} WalkInside(raw: seq<byte>, offset: nat, end: nat)
    requires end <= |raw|
    ensures !FindIntegrity(raw, offset, end).Outside?
    decreases end + 4 - offset
  {
    if offset + 4 <= end && Read16(raw[offset..]) != MESSAGE_INTEGRITY {
      WalkInside(raw, Align(offset + 4 + Read16(raw[offset + 2..])), end);
    }
  }

  /** A parsed message leaves the buffer exactly when fewer than 24 bytes remain at its first MESSAGE-INTEGRITY. */
  lemma ParsedPastEnd(x: Crypto, raw: seq<byte>, key: seq<byte>)
    requires Parse(raw).Some?
    ensures Verify(x, raw, key) == PastEnd <==> IntegrityAt(raw).Found? && IntegrityAt(raw).at + 24 > |raw|
  {
    WalkInside(raw, 20, 20 + Read16(raw[2..]));
  }

  /** The attributes from the first MESSAGE-INTEGRITY on. */
  function FromIntegrity(attrs: seq<Attr>): (r: seq<Attr>)
  {
    if attrs == [] || attrs[0].kind == MESSAGE_INTEGRITY then attrs else FromIntegrity(attrs[1..])
  }

  lemma {:induction false} WalkFinds(s: seq<byte>, pre: seq<byte>, attrs: seq<Attr>)
    requires |pre| % 4 == 0 && s == pre + Encode(attrs)
    requires forall i :: 0 <= i < |attrs| ==> |attrs[i].value| < 0x1_0000
    ensures |Encode(FromIntegrity(attrs))| <= |Encode(attrs)|
    ensures FindIntegrity(s, |pre|, |s|) ==
            if FromIntegrity(attrs) == [] then Absent else Found(|s| - |Encode(FromIntegrity(attrs))|)
    decreases |attrs|
  {
    if attrs != [] {
      var e, rest := EncodeAttr(attrs[0]), Encode(attrs[1..]);
      Assoc(pre, e, rest);
      FindStep(s, pre, attrs[0], rest);
      if attrs[0].kind != MESSAGE_INTEGRITY {
        WalkFinds(s, pre + e, attrs[1..]);
      }
    }
  }

  /**
   * The check of any laid-out message stays inside the buffer exactly when the message is too short to be checked, has
   * no MESSAGE-INTEGRITY, or takes at least 24 bytes from the first one on.
   */
  lemma InsideExactly(x: Crypto, kind: u16, txn: TransactionId, attrs: seq<Attr>, key: seq<byte>)
    requires |Encode(attrs)| < 0x1_0000
    ensures Verify(x, Message(kind, txn, Encode(attrs)), key) != PastEnd <==>
            |Encode(attrs)| < 24 || FromIntegrity(attrs) == [] || |Encode(FromIntegrity(attrs))| >= 24
  {
    var raw := Message(kind, txn, Encode(attrs));
    LengthField(kind, txn, Encode(attrs));
    forall i | 0 <= i < |attrs|
      ensures |attrs[i].value| < 0x1_0000
    {
      ValuesFit(attrs, i);
    }
    WalkFinds(raw, Header(kind, |Encode(attrs)|, txn), attrs);
  }

  function ShortIntegrity(): (attrs: seq<Attr>) { [Attr(USERNAME, Zeros(16)), Attr(MESSAGE_INTEGRITY, [])] }

  /** It can leave: a 44-byte message that parses with its integrity flag set, ending in an empty MESSAGE-INTEGRITY. */
  lemma ShortIntegrityPastEnd(x: Crypto, txn: TransactionId, key: seq<byte>)
    ensures var raw := Message(1, txn, Encode(ShortIntegrity()));
            && |raw| == 44
            && Parse(raw).Some? && Parse(raw).value.hasIntegrity
            && Verify(x, raw, key) == PastEnd
  {
    var attrs := ShortIntegrity();
    assert attrs[1..] == [Attr(MESSAGE_INTEGRITY, [])] && attrs[1..][1..] == [];
    assert |Encode(attrs[1..])| == 4 && |Encode(attrs)| == 24;
    assert FromIntegrity(attrs) == FromIntegrity(attrs[1..]) == attrs[1..];
    InsideExactly(x, 1, txn, attrs, key);
    ParseMessage(1, txn, attrs);
  }

  // ---- Signer and verifier ----

  predicate NoIntegrity(attrs: seq<Attr>) {
    forall i :: 0 <= i < |attrs| ==> attrs[i].kind != MESSAGE_INTEGRITY && |attrs[i].value| < 0x1_0000
  }

  lemma FindStep(s: seq<byte>, pre: seq<byte>, a: Attr, post: seq<byte>)
    requires |pre| % 4 == 0 && |a.value| < 0x1_0000 && s == pre + EncodeAttr(a) + post
    ensures var next := |pre + EncodeAttr(a)|;
            && next % 4 == 0
            && FindIntegrity(s, |pre|, |s|) ==
               if a.kind == MESSAGE_INTEGRITY then Found(|pre|) else FindIntegrity(s, next, |s|)
  {
    AttrAt(pre, a, post);
    NextAttr(pre, a);
    FindAt(s, |pre|, a.kind, |a.value|);
  }

  lemma FindAt(s: seq<byte>, at: nat, kind: u16, length: u16)
    requires at + 4 <= |s| && Read16(s[at..]) == kind && Read16(s[at + 2..]) == length
    ensures FindIntegrity(s, at, |s|) ==
            if kind == MESSAGE_INTEGRITY then Found(at) else FindIntegrity(s, Align(at + 4 + length), |s|)
  {
  }

  /** The walk stops at the first MESSAGE-INTEGRITY. */
  lemma {:induction false} FindFirst(s: seq<byte>, pre: seq<byte>, attrs: seq<Attr>, mi: Attr, post: seq<byte>)
    requires |pre| % 4 == 0 && NoIntegrity(attrs) && mi.kind == MESSAGE_INTEGRITY && |mi.value| == 20
    requires s == pre + Encode(attrs) + (EncodeAttr(mi) + post)
    ensures FindIntegrity(s, |pre|, |s|) == Found(|pre + Encode(attrs)|)
    decreases |attrs|
  {
    if attrs == [] {
      assert pre + Encode(attrs) == pre;
      Assoc(pre, EncodeAttr(mi), post);
      FindStep(s, pre, mi, post);
    } else {
      var e, rest, tail := EncodeAttr(attrs[0]), Encode(attrs[1..]), EncodeAttr(mi) + post;
      Assoc(pre, e, rest);
      Assoc(pre + e, rest, tail);
      FindStep(s, pre, attrs[0], rest + tail);
      FindFirst(s, pre + e, attrs[1..], mi, post);
    }
  }

  lemma CheckAt(x: Crypto, raw: seq<byte>, at: nat, key: seq<byte>)
    requires 20 <= at && at + 24 <= |raw| && 20 + Read16(raw[2..]) == |raw|
    requires FindIntegrity(raw, 20, |raw|) == Found(at)
    ensures Verify(x, raw, key) == if Matches(x, raw, at, key) then Accepted else Rejected
  {
    assert IntegrityAt(raw) == Found(at);
  }

  lemma ValueAt(pre: seq<byte>, attr: seq<byte>, post: seq<byte>)
    requires |attr| >= 24
    ensures (pre + attr + post)[|pre| + 4..|pre| + 24] == attr[4..24]
  {
  }

  /** The check on signed bytes, an attribute whose value is at bytes 4 to 24, and whatever follows. */
  lemma CheckLaidOut(x: Crypto, kind: u16, txn: TransactionId, front: seq<byte>, attr: seq<byte>, post: seq<byte>,
                     key: seq<byte>)
    requires |attr| >= 24 && |front + (attr + post)| < 0x1_0000
    requires var raw := Message(kind, txn, front + (attr + post)); FindIntegrity(raw, 20, |raw|) == Found(20 + |front|)
    ensures var raw := Message(kind, txn, front + (attr + post));
            Verify(x, raw, key) == if x.mac(key, Signed(kind, txn, front)) == attr[4..24] then Accepted else Rejected
  {
    var raw, header := Message(kind, txn, front + (attr + post)), Header(kind, |front + (attr + post)|, txn);
    LengthField(kind, txn, front + (attr + post));
    SignedAgain(kind, txn, front, attr + post);
    assert raw == header + front + attr + post;
    ValueAt(header + front, attr, post);
    CheckAt(x, raw, 20 + |front|, key);
  }

  lemma CheckSigned(x: Crypto, kind: u16, txn: TransactionId, attrs: seq<Attr>, mi: Attr, post: seq<byte>,
                    key: seq<byte>)
    requires NoIntegrity(attrs) && mi.kind == MESSAGE_INTEGRITY && |mi.value| == 20
    requires |Encode(attrs) + (EncodeAttr(mi) + post)| < 0x1_0000
    ensures var raw := Message(kind, txn, Encode(attrs) + (EncodeAttr(mi) + post));
            Verify(x, raw, key) ==
            if x.mac(key, Signed(kind, txn, Encode(attrs))) == mi.value then Accepted else Rejected
  {
    var front, tail := Encode(attrs), EncodeAttr(mi) + post;
    var raw, header := Message(kind, txn, front + tail), Header(kind, |front + tail|, txn);
    Assoc(header, front, tail);
    FindFirst(raw, header, attrs, mi, post);
    IntegrityValue(mi);
    CheckLaidOut(x, kind, txn, front, EncodeAttr(mi), post, key);
  }

  lemma LengthField(kind: u16, txn: TransactionId, body: seq<byte>)
    requires |body| < 0x1_0000
    ensures Read16(Message(kind, txn, body)[2..]) == |body|
  {
    var s := Message(kind, txn, body);
    assert s[2..] == Write16(|body|) + (Write32(COOKIE) + txn + body);
    ReadWrite16(|body|, Write32(COOKIE) + txn + body);
  }

  lemma IntegrityValue(mi: Attr)
    requires |mi.value| == 20
    ensures |EncodeAttr(mi)| == 24 && EncodeAttr(mi)[4..24] == mi.value
  {
    assert Align(20) == 20;
  }

  /** The bytes the verifier puts together are the bytes that were signed. */
  lemma SignedAgain(kind: u16, txn: TransactionId, signed: seq<byte>, rest: seq<byte>)
    ensures Reassembled(Message(kind, txn, signed + rest), 20 + |signed|) == Signed(kind, txn, signed)
  {
    var raw := Message(kind, txn, signed + rest);
    assert raw[..2] == Write16(kind);
    assert raw[4..20] == Write32(COOKIE) + txn;
    assert raw[20..20 + |signed|] == signed;
    assert 20 + |signed| + 4 == |signed| + 24;
  }

  lemma AssocAttrs(a: seq<Attr>, b: seq<Attr>, c: seq<Attr>)
    ensures a + (b + c) == a + b + c
  {
  }

  lemma CollectedStep(x: Crypto, kind: u16, txn: TransactionId, calls: seq<Call>, c: Call)
    ensures Collected(x, kind, txn, calls + [c]) ==
            Collected(x, kind, txn, calls) + AttrsOf(x, kind, txn, Body(x, kind, txn, calls), c)
  {
    assert (calls + [c])[..|calls|] == calls;
  }

  lemma CollectedExtends(x: Crypto, kind: u16, txn: TransactionId, calls: seq<Call>, c: Call)
    ensures Collected(x, kind, txn, calls) <= Collected(x, kind, txn, calls + [c])
  {
    CollectedStep(x, kind, txn, calls, c);
  }

  lemma {:induction false} CollectedGrows(x: Crypto, kind: u16, txn: TransactionId, calls: seq<Call>, more: seq<Call>)
    ensures Collected(x, kind, txn, calls) <= Collected(x, kind, txn, calls + more)
    decreases |more|
  {
    if more == [] {
      assert calls + more == calls;
    } else {
      var part, c := calls + more[..|more| - 1], more[|more| - 1];
      assert calls + more == part + [c];
      CollectedGrows(x, kind, txn, calls, more[..|more| - 1]);
      CollectedExtends(x, kind, txn, part, c);
    }
  }

  lemma {:induction false} CollectedKinds(x: Crypto, kind: u16, txn: TransactionId, calls: seq<Call>, i: nat)
    requires i < |Collected(x, kind, txn, calls)| && forall j :: 0 <= j < |calls| ==> !calls[j].Integrity?
    ensures Collected(x, kind, txn, calls)[i].kind != MESSAGE_INTEGRITY
  {
    var last := |calls| - 1;
    var before := Collected(x, kind, txn, calls[..last]);
    if i < |before| {
      CollectedKinds(x, kind, txn, calls[..last], i);
    }
  }

  function IntegrityAttr(x: Crypto, kind: u16, txn: TransactionId, before: seq<Call>, key: seq<byte>): (a: Attr)
  {
    Attr(MESSAGE_INTEGRITY, x.mac(key, Signed(kind, txn, Body(x, kind, txn, before))))
  }

  /** How a message with a MESSAGE-INTEGRITY call in the middle is laid out. */
  lemma SignedLayout(x: Crypto, kind: u16, txn: TransactionId, before: seq<Call>, key: seq<byte>, after: seq<Call>)
    returns (rest: seq<Attr>)
    ensures var mi := IntegrityAttr(x, kind, txn, before, key);
            && Collected(x, kind, txn, before + [Integrity(key)] + after) ==
               Collected(x, kind, txn, before) + ([mi] + rest)
            && Body(x, kind, txn, before + [Integrity(key)] + after)
               == Body(x, kind, txn, before) + (EncodeAttr(mi) + Encode(rest))
  {
    var attrs, mi := Collected(x, kind, txn, before), IntegrityAttr(x, kind, txn, before, key);
    var part := Collected(x, kind, txn, before + [Integrity(key)]);
    var all := Collected(x, kind, txn, before + [Integrity(key)] + after);
    CollectedGrows(x, kind, txn, before + [Integrity(key)], after);
    CollectedStep(x, kind, txn, before, Integrity(key));
    rest := all[|part|..];
    assert all == part + rest;
    AssocAttrs(attrs, [mi], rest);
    EncodeAppend(attrs, [mi] + rest);
    assert ([mi] + rest)[1..] == rest;
  }

  lemma NoIntegrityBefore(x: Crypto, kind: u16, txn: TransactionId, before: seq<Call>, more: seq<Attr>)
    requires forall j :: 0 <= j < |before| ==> !before[j].Integrity?
    requires |Encode(Collected(x, kind, txn, before) + more)| < 0x1_0000
    ensures NoIntegrity(Collected(x, kind, txn, before))
  {
    var attrs := Collected(x, kind, txn, before);
    forall i | 0 <= i < |attrs|
      ensures attrs[i].kind != MESSAGE_INTEGRITY && |attrs[i].value| < 0x1_0000
    {
      CollectedKinds(x, kind, txn, before, i);
      assert (attrs + more)[i] == attrs[i];
      ValuesFit(attrs + more, i);
    }
  }

  /**
   * The first MESSAGE-INTEGRITY of a built message is accepted under a key exactly when that key signs the bytes as the
   * builder's key did; so it is accepted under the builder's key, whatever attributes follow.
   */
  lemma SignerAndVerifierAgree(x: Crypto, kind: u16, txn: TransactionId, before: seq<Call>, key: seq<byte>,
                               after: seq<Call>, key': seq<byte>)
    requires forall j :: 0 <= j < |before| ==> !before[j].Integrity?
    requires |Body(x, kind, txn, before + [Integrity(key)] + after)| < 0x1_0000
    ensures var raw := Built(x, kind, txn, before + [Integrity(key)] + after);
            var signed := Signed(kind, txn, Body(x, kind, txn, before));
            && Verify(x, raw, key') == (if x.mac(key', signed) == x.mac(key, signed) then Accepted else Rejected)
            && Verify(x, raw, key) == Accepted
  {
    var attrs, mi := Collected(x, kind, txn, before), IntegrityAttr(x, kind, txn, before, key);
    var rest := SignedLayout(x, kind, txn, before, key, after);
    NoIntegrityBefore(x, kind, txn, before, [mi] + rest);
    CheckSigned(x, kind, txn, attrs, mi, Encode(rest), key);
    CheckSigned(x, kind, txn, attrs, mi, Encode(rest), key');
  }

  // ---- The builder object ----

  class StunBuilder {
    const crypto: Crypto
    const kind: u16
    const txn: TransactionId
    var attrs: seq<byte>
    ghost var calls: seq<Call>

    ghost predicate Valid()
      reads this
    {
      attrs == Body(crypto, kind, txn, calls)
    }

    constructor (crypto: Crypto, kind: u16, txn: TransactionId)
      ensures Valid() && calls == []
      ensures this.crypto == crypto && this.kind == kind && this.txn == txn
    {
      this.crypto, this.kind, this.txn := crypto, kind, txn;
      attrs, calls := [], [];
    }

    method AddAttr(kind: u16, value: seq<byte>)
      requires |attrs| % 4 == 0
      modifies `attrs
      ensures attrs == old(attrs) + EncodeAttr(Attr(kind, value))
    {
      var unpadded := attrs + Write16(kind) + Write16(|value| % 0x1_0000) + value;
      attrs := PadToWord(unpadded);
      AlignShift(|old(attrs)|, |value|);
      AlignShift(|old(attrs)| + 4, |value|);
    }

    ghost method Record(c: Call, more: seq<Attr>)
      requires attrs == Body(crypto, kind, txn, calls) + Encode(more)
      requires more == AttrsOf(crypto, kind, txn, Body(crypto, kind, txn, calls), c)
      modifies `calls
      ensures Valid() && calls == old(calls) + [c]
    {
      CollectedStep(crypto, kind, txn, calls, c);
      EncodeAppend(Collected(crypto, kind, txn, calls), more);
      calls := calls + [c];
    }

    /** The call's attribute goes on the end. */
    method Append(ghost c: Call, a: Attr)
      requires Valid() && [a] == AttrsOf(crypto, kind, txn, attrs, c)
      modifies this
      ensures Valid() && calls == old(calls) + [c]
    {
      EncodeAligned(Collected(crypto, kind, txn, calls));
      AddAttr(a.kind, a.value);
      assert [a][1..] == [];
      assert Encode([a]) == EncodeAttr(a) + [];
      Record(c, [a]);
    }

    /** add_username, add_priority and the other calls whose value does not depend on what came before. */
    method Add(c: Call)
      requires Valid() && !c.PaddingTo? && !c.Integrity? && !c.Fingerprint?
      modifies this
      ensures Valid() && calls == old(calls) + [c]
    {
      Append(c, PlainAttr(c, txn));
    }

    method AddIntegrity(key: seq<byte>)
      requires Valid()
      modifies this
      ensures Valid() && calls == old(calls) + [Integrity(key)]
    {
      var msg := Header(kind, |attrs| + 24, txn) + attrs;
      Append(Integrity(key), Attr(MESSAGE_INTEGRITY, crypto.mac(key, msg)));
    }

    method AddFingerprint()
      requires Valid()
      modifies this
      ensures Valid() && calls == old(calls) + [Fingerprint]
    {
      var msg := Header(kind, |attrs| + 8, txn) + attrs;
      Append(Fingerprint, Attr(FINGERPRINT, FingerprintValue(crypto.crc(msg))));
    }

    method AddPaddingTo(target: nat)
      requires Valid()
      modifies this
      ensures Valid() && calls == old(calls) + [PaddingTo(target)]
    {
      var cur := 20 + |attrs|;
      var aligned := target / 4 * 4;
      if target <= cur || target - cur < 4 || aligned <= cur || aligned - cur - 4 > 0xFFFF {
        SmallPadding(|attrs|, target, calls);
        Record(PaddingTo(target), []);
        return;
      }
      SmallPadding(|attrs|, target, calls);
      Append(PaddingTo(target), Attr(UNKNOWN_ATTRIBUTES, Zeros(aligned - cur - 4)));
    }

    /** Between the guard as written and the filler length: an aligned size leaves no gap of one to three bytes. */
    lemma SmallPadding(size: nat, target: nat, made: seq<Call>)
      requires size == |Body(crypto, kind, txn, made)|
      ensures target / 4 * 4 > 20 + size ==> target / 4 * 4 >= 24 + size
    {
      EncodeAligned(Collected(crypto, kind, txn, made));
    }

    method Build() returns (msg: seq<byte>)
      requires Valid()
      ensures msg == Built(crypto, kind, txn, calls)
    {
      msg := Header(kind, |attrs|, txn) + attrs;
    }
  }

  lemma AlignUnique(n: nat, m: nat)
    requires n <= m <= Align(n)
    ensures m % 4 == 0 <==> m == Align(n)
  {
  }

  lemma OneMoreZero(s: seq<byte>, n: nat)
    ensures s + Zeros(n) + [0] == s + Zeros(n + 1)
  {
    assert Zeros(n) + [0] == Zeros(n + 1);
  }

  /** Zeros up to a multiple of four. */
  method PadToWord(s: seq<byte>) returns (r: seq<byte>)
    ensures r == s + Zeros(Align(|s|) - |s|)
  {
    r := s;
    var n: nat := 0;
    AlignUnique(|s|, |s|);
    while |r| % 4 != 0
      invariant n <= Align(|s|) - |s| && r == s + Zeros(n)
      invariant |r| % 4 == 0 <==> n == Align(|s|) - |s|
      decreases Align(|s|) - |s| - n
    {
      OneMoreZero(s, n);
      r, n := r + [0], n + 1;
      AlignUnique(|s|, |r|);
    }
  }

  // ---- The readers ----

  method ParseStun(s: seq<byte>) returns (r: Option<Parsed>)
    ensures r == Parse(s)
  {
    if |s| < 20 {
      return None;
    }
    var length := Read16(s[2..]);
    if Read32(s[4..]) != COOKIE || 20 + length > |s| {
      return None;
    }
    var end, offset, m := 20 + length, 20, Blank(Read16(s), s[8..20]);
    ghost var whole := ParseFrom(s, offset, end, m);
    while offset + 4 <= end
      invariant ParseFrom(s, offset, end, m) == whole
      decreases |s| + 4 - offset
    {
      var kind, size, start := Read16(s[offset..]), Read16(s[offset + 2..]), offset + 4;
      if start + size > |s| {
        return Some(m);
      }
      assert ParseFrom(s, Align(start + size), end, Update(m, kind, s[start..start + size])) == whole;
      m := Update(m, kind, s[start..start + size]);
      offset := Align(start + size);
    }
    return Some(m);
  }

  method VerifyIntegrity(x: Crypto, raw: seq<byte>, key: seq<byte>) returns (v: Verdict)
    ensures v == Verify(x, raw, key)
  {
    if |raw| < 44 {
      return Rejected;
    }
    var end, offset := 20 + Read16(raw[2..]), 20;
    while offset + 4 <= end
      invariant offset >= 20 && FindIntegrity(raw, offset, end) == IntegrityAt(raw)
      decreases end + 4 - offset
    {
      if offset + 4 > |raw| {
        return PastEnd;
      }
      if Read16(raw[offset..]) == MESSAGE_INTEGRITY {
        break;
      }
      offset := Align(offset + 4 + Read16(raw[offset + 2..]));
    }
    if offset + 4 > end {
      return Rejected;
    }
    assert IntegrityAt(raw) == Found(offset);
    if offset + 24 > |raw| {
      return PastEnd;
    }
    return if x.mac(key, Reassembled(raw, offset)) == raw[offset + 4..offset + 24] then Accepted else Rejected;
  }
}
