/** Multicast DNS names and messages. */
module Dns {
  import opened Bytes

  const DOT: byte := 46
  const TYPE_A: u16 := 1
  const TYPE_AAAA: u16 := 28
  const CLASS_IN: u16 := 1

  type Name = seq<byte>

  function Lower(b: byte): (r: byte) { if 65 <= b <= 90 then b + 32 else b }

  function LowerAll(s: Name): (r: Name)
    ensures |r| == |s| && forall i {:trigger r[i]} :: 0 <= i < |s| ==> r[i] == Lower(s[i])
  {
    seq(|s|, i requires 0 <= i < |s| => Lower(s[i]))
  }

  /** The name a reader recovers: in lower case, without a trailing dot. */
  function Canonical(name: Name): (r: Name)
  {
    LowerAll(if name != [] && name[|name| - 1] == DOT then name[..|name| - 1] else name)
  }

  // ---- Encoding ----

  /** Where the label that starts at i ends. */
  function LabelEnd(name: Name, i: nat): (end: nat)
    requires i <= |name|
    ensures i <= end <= |name| && (forall k :: i <= k < end ==> name[k] != DOT)
    ensures end < |name| ==> name[end] == DOT
    decreases |name| - i
  {
    if i == |name| || name[i] == DOT then i else LabelEnd(name, i + 1)
  }

  function Joined(tag: seq<byte>, rest: Option<seq<byte>>): (r: Option<seq<byte>>)
    requires |tag| <= 63
  {
    match rest
    case None => None
    case Some(s) => Some([|tag|] + tag + s)
  }

  /** The encoding of the labels from i on, with size bytes already written. */
  function EncodeFrom(name: Name, i: nat, size: nat): (r: Option<seq<byte>>)
    decreases |name| - i
  {
    if i >= |name| then Some([0])
    else
      var end := LabelEnd(name, i);
      var length := end - i;
      if length == 0 || length > 63 || size + 1 + length > 255 then None
      else Joined(name[i..end], EncodeFrom(name, end + 1, size + 1 + length))
  }

  function EncodeName(name: Name): (r: Option<seq<byte>>) { EncodeFrom(name, 0, 0) }

  // ---- Decoding ----

  datatype Decoded = Decoded(name: Name, next: nat)

  /** The name so far, followed by one more label. */
  function WithLabel(name: Name, tag: seq<byte>): (r: Name)
    ensures |r| <= |name| + 1 + |tag|
  {
    (if name != [] then name + [DOT] else name) + LowerAll(tag)
  }

  /** What stands at an offset: nothing usable, the end of a name, a pointer, or a label. */
  datatype Item = Malformed | End | Pointer(target: nat) | Label(tag: seq<byte>)

  function ItemAt(s: seq<byte>, cur: nat): (r: Item)
    ensures r.End? ==> cur < |s|
    ensures r.Pointer? ==> cur + 2 <= |s|
    ensures r.Label? ==> 0 < |r.tag| <= 63
  {
    if cur >= |s| then Malformed
    else
      var length: int := s[cur];
      if length == 0 then End
      else if length >= 0xC0 then
        if cur + 1 >= |s| then Malformed
        else
          var target := (length - 0xC0) * 0x100 + s[cur + 1];
          if target >= |s| then Malformed else Pointer(target)
      else if length >= 0x40 || cur + 1 + length > |s| then Malformed
      else Label(s[cur + 1..cur + 1 + length])
  }

  /**
   * Decoding from cur. Jumps are counted and so are the bytes of the name, so even a cycle of pointers ends. The offset
   * after the name is fixed by the first pointer.
   */
  function DecodeFrom(s: seq<byte>, cur: nat, name: Name, after: Option<nat>, jumps: nat, total: nat):
    (r: Option<Decoded>)
    requires jumps <= 16 && |name| <= total <= 255
    requires after.Some? ==> after.value <= |s|
    ensures r.Some? ==> r.value.next <= |s| && |r.value.name| <= 255
    decreases 16 - jumps, 255 - total
  {
    match ItemAt(s, cur)
    case Malformed => None
    case End => Some(Decoded(name, if after.Some? then after.value else cur + 1))
    case Pointer(target) =>
      if jumps + 1 > 16 then None
      else DecodeFrom(s, target, name, if after.Some? then after else Some(cur + 2), jumps + 1, total)
    case Label(tag) =>
      if total + 1 + |tag| > 255 then None
      else DecodeFrom(s, cur + 1 + |tag|, WithLabel(name, tag), after, jumps, total + 1 + |tag|)
  }

  function DecodeName(s: seq<byte>, off: nat): (r: Option<Decoded>)
    ensures r.Some? ==> r.value.next <= |s| && |r.value.name| <= 255
  {
    DecodeFrom(s, off, [], None, 0, 0)
  }

  // ---- Labels on the wire ----

  function Wire(labels: seq<seq<byte>>): (r: seq<byte>)
    requires forall k :: 0 <= k < |labels| ==> 0 < |labels[k]| <= 63
  {
    if labels == [] then [0] else [|labels[0]|] + labels[0] + Wire(labels[1..])
  }

  /** Wire bytes before the terminator. */
  function Size(labels: seq<seq<byte>>): (n: nat)
  {
    if labels == [] then 0 else 1 + |labels[0]| + Size(labels[1..])
  }

  /** The name once these labels follow it. */
  function Spoken(name: Name, labels: seq<seq<byte>>): (r: Name)
    decreases |labels|
  {
    if labels == [] then name else Spoken(WithLabel(name, labels[0]), labels[1..])
  }

  lemma LabelAt(pre: seq<byte>, tag: seq<byte>, rest: seq<byte>)
    requires 0 < |tag| <= 63
    ensures ItemAt(pre + ([|tag|] + tag + rest), |pre|) == Label(tag)
  {
    var s := pre + ([|tag|] + tag + rest);
    assert s[|pre|] == |tag|;
    assert s[|pre| + 1..|pre| + 1 + |tag|] == tag;
  }

  lemma DecodeStep(pre: seq<byte>, tag: seq<byte>, rest: seq<byte>, name: Name, total: nat)
    requires 0 < |tag| <= 63 && |name| <= total && total + 1 + |tag| <= 255
    ensures var s := pre + ([|tag|] + tag + rest);
            DecodeFrom(s, |pre|, name, None, 0, total)
            == DecodeFrom(s, |pre| + 1 + |tag|, WithLabel(name, tag), None, 0, total + 1 + |tag|)
  {
    LabelAt(pre, tag, rest);
  }

  lemma Regroup(pre: seq<byte>, tag: seq<byte>, wire: seq<byte>, post: seq<byte>)
    requires |tag| <= 63
    ensures pre + ([|tag|] + tag + wire + post) == pre + ([|tag|] + tag + (wire + post))
    ensures pre + ([|tag|] + tag + wire + post) == (pre + [|tag|] + tag) + (wire + post)
  {
  }

  lemma {:induction false} DecodeWire(pre: seq<byte>, labels: seq<seq<byte>>, post: seq<byte>, name: Name, total: nat)
    requires forall k :: 0 <= k < |labels| ==> 0 < |labels[k]| <= 63
    requires |name| <= total && total + Size(labels) <= 255
    ensures DecodeFrom(pre + (Wire(labels) + post), |pre|, name, None, 0, total)
            == Some(Decoded(Spoken(name, labels), |pre| + |Wire(labels)|))
    decreases |labels|
  {
    if labels == [] {
      assert (pre + (Wire(labels) + post))[|pre|] == 0;
    } else {
      var tag, wire := labels[0], Wire(labels[1..]);
      Regroup(pre, tag, wire, post);
      DecodeStep(pre, tag, wire + post, name, total);
      DecodeWire(pre + [|tag|] + tag, labels[1..], post, WithLabel(name, tag), total + 1 + |tag|);
    }
  }

  // ---- Names and their labels ----

  /** The name decoded once the labels before i are done. */
  function Sofar(name: Name, i: nat): (r: Name)
    requires i <= |name| + 1
  {
    if i == 0 then [] else LowerAll(name[..i - 1])
  }

  /** i is the start of a label, or past the end. */
  predicate Boundary(name: Name, i: nat) {
    || i == 0
    || (2 <= i <= |name| && name[i - 1] == DOT)
    || (2 <= i == |name| + 1 && name[i - 2] != DOT)
  }

  lemma SofarGrows(name: Name, i: nat)
    requires Boundary(name, i) && i < |name|
    ensures var end := LabelEnd(name, i); end > i ==> WithLabel(Sofar(name, i), name[i..end]) == Sofar(name, end + 1)
  {
    var end := LabelEnd(name, i);
    if i > 0 && end > i {
      assert name[..end] == name[..i - 1] + [DOT] + name[i..end];
    }
  }

  lemma SofarEnds(name: Name, i: nat)
    requires Boundary(name, i) && i >= |name|
    ensures Sofar(name, i) == Canonical(name)
  {
    if i == |name| + 1 {
      assert name[..i - 1] == name;
    }
  }

  /** The encoding from i is the wire form of labels that spell out the rest of the name. */
  ghost predicate Spells(name: Name, i: nat, size: nat, enc: seq<byte>, labels: seq<seq<byte>>) {
    && i <= |name| + 1 && (forall k :: 0 <= k < |labels| ==> 0 < |labels[k]| <= 63)
    && enc == Wire(labels) && (labels == [] || size + Size(labels) <= 255)
    && Spoken(Sofar(name, i), labels) == Canonical(name)
  }

  lemma SpellsMore(name: Name, i: nat, size: nat, tag: seq<byte>, j: nat, rest: seq<byte>, labels: seq<seq<byte>>)
    requires Spells(name, j, size + 1 + |tag|, rest, labels) && 0 < |tag| <= 63 && size + 1 + |tag| <= 255
    requires i <= |name| + 1 && WithLabel(Sofar(name, i), tag) == Sofar(name, j)
    ensures Spells(name, i, size, [|tag|] + tag + rest, [tag] + labels)
  {
    assert ([tag] + labels)[1..] == labels;
  }

  /** The encoding from i is one label and the encoding from the next boundary. */
  ghost predicate Splits(name: Name, i: nat, size: nat, enc: seq<byte>, tag: seq<byte>, j: nat, rest: seq<byte>) {
    && i < j <= |name| + 1 && Boundary(name, j) && 0 < |tag| <= 63 && size + 1 + |tag| <= 255
    && EncodeFrom(name, j, size + 1 + |tag|) == Some(rest) && enc == [|tag|] + tag + rest
    && WithLabel(Sofar(name, i), tag) == Sofar(name, j)
  }

  lemma SplitFirst(name: Name, i: nat, size: nat, enc: seq<byte>) returns (tag: seq<byte>, j: nat, rest: seq<byte>)
    requires Boundary(name, i) && i < |name| && EncodeFrom(name, i, size) == Some(enc)
    ensures Splits(name, i, size, enc, tag, j, rest)
  {
    var end := LabelEnd(name, i);
    tag, j := name[i..end], end + 1;
    rest := EncodeFrom(name, j, size + 1 + |tag|).value;
    SofarGrows(name, i);
  }

  lemma {:induction false} EncodingSpells(name: Name, i: nat, size: nat, enc: seq<byte>)
    returns (labels: seq<seq<byte>>)
    requires Boundary(name, i) && EncodeFrom(name, i, size) == Some(enc)
    ensures Spells(name, i, size, enc, labels)
    decreases |name| + 1 - i
  {
    if i >= |name| {
      labels := [];
      SofarEnds(name, i);
    } else {
      var tag, j, rest := SplitFirst(name, i, size, enc);
      labels := EncodingSpells(name, j, size + 1 + |tag|, rest);
      SpellsMore(name, i, size, tag, j, rest, labels);
      labels := [tag] + labels;
    }
  }

  /** Wherever an encoded name stands in a message, it decodes to the canonical name and the offset just past it. */
  lemma EncodeThenDecode(name: Name, pre: seq<byte>, post: seq<byte>)
    requires EncodeName(name).Some?
    ensures var enc := EncodeName(name).value;
            DecodeName(pre + (enc + post), |pre|) == Some(Decoded(Canonical(name), |pre| + |enc|))
  {
    var labels := EncodingSpells(name, 0, 0, EncodeName(name).value);
    DecodeWire(pre, labels, post, [], 0);
  }

  // ---- Messages ----

  datatype Address = A(octets: seq<byte>) | Aaaa(bytes: seq<byte>)

  datatype Answer = Answer(name: Name, address: Address)

  datatype Message = Message(response: bool, txn: u16, question: Name, qtype: u16, answers: seq<Answer>)

  /** A message being parsed and the offset reached. */
  datatype Cursor = Cursor(message: Message, off: nat)

  function ReadQuestion(s: seq<byte>, c: Cursor, first: bool): (r: Option<Cursor>)
    ensures r.Some? ==> r.value.off <= |s|
  {
    match DecodeName(s, c.off)
    case None => None
    case Some(d) =>
      if d.next + 4 > |s| then None
      else
        var m := c.message;
        Some(Cursor(if first then m.(question := d.name, qtype := Read16(s[d.next..])) else m, d.next + 4))
  }

  function ReadQuestions(s: seq<byte>, c: Cursor, done: nat, count: nat): (r: Option<Cursor>)
    requires done <= count && c.off <= |s|
    ensures r.Some? ==> r.value.off <= |s|
    decreases count - done
  {
    if done == count then Some(c)
    else match ReadQuestion(s, c, done == 0)
      case None => None
      case Some(d) => ReadQuestions(s, d, done + 1, count)
  }

  /** The address a record carries, if it is an internet A or AAAA record of the right size. */
  function RecordAddress(rtype: u16, rclass: u16, rdata: seq<byte>): (r: Option<Address>)
  {
    if rclass % 0x8000 != CLASS_IN then None
    else if rtype == TYPE_A && |rdata| == 4 then Some(A(rdata))
    else if rtype == TYPE_AAAA && |rdata| == 16 then Some(Aaaa(rdata))
    else None
  }

  function ReadAnswer(s: seq<byte>, c: Cursor): (r: Option<Cursor>)
    ensures r.Some? ==> r.value.off <= |s|
  {
    match DecodeName(s, c.off)
    case None => None
    case Some(d) =>
      if d.next + 10 > |s| then None
      else
        var size, start := Read16(s[d.next + 8..]), d.next + 10;
        if start + size > |s| then None
        else
          var m := c.message;
          match RecordAddress(Read16(s[d.next..]), Read16(s[d.next + 2..]), s[start..start + size])
          case None => Some(Cursor(m, start + size))
          case Some(a) => Some(Cursor(m.(answers := m.answers + [Answer(d.name, a)]), start + size))
  }

  function ReadAnswers(s: seq<byte>, c: Cursor, done: nat, count: nat): (r: Option<Message>)
    requires done <= count
    decreases count - done
  {
    if done == count then Some(c.message)
    else match ReadAnswer(s, c)
      case None => None
      case Some(d) => ReadAnswers(s, d, done + 1, count)
  }

  function Parse(s: seq<byte>): (r: Option<Message>)
  {
    if |s| < 12 then None
    else
      match ReadQuestions(s, Cursor(Message(Read16(s[2..]) >= 0x8000, Read16(s), [], 0, []), 12), 0, Read16(s[4..]))
      case None => None
      case Some(c) => ReadAnswers(s, c, 0, Read16(s[6..]))
  }

  function QueryType(aaaa: bool): (r: u16) { if aaaa then TYPE_AAAA else TYPE_A }

  function QueryHeader(txn: u16): (r: seq<byte>)
    ensures |r| == 12
  {
    Write16(txn) + [0, 0, 0, 1, 0, 0, 0, 0, 0, 0]
  }

  /** The empty message stands for a name that cannot be encoded. */
  function EncodeQuery(name: Name, txn: u16, aaaa: bool): (r: seq<byte>)
  {
    match EncodeName(name)
    case None => []
    case Some(enc) => QueryHeader(txn) + (enc + (Write16(QueryType(aaaa)) + Write16(CLASS_IN)))
  }

  lemma ReadHeader(txn: u16, body: seq<byte>)
    ensures var s := QueryHeader(txn) + body;
            Read16(s) == txn && Read16(s[2..]) == 0 && Read16(s[4..]) == 1 && Read16(s[6..]) == 0
  {
    var s := QueryHeader(txn) + body;
    assert s == Write16(txn) + ([0, 0, 0, 1, 0, 0, 0, 0, 0, 0] + body);
    ReadWrite16(txn, [0, 0, 0, 1, 0, 0, 0, 0, 0, 0] + body);
  }

  lemma ReadQueryTail(pre: seq<byte>, enc: seq<byte>, qtype: u16)
    ensures var s := pre + (enc + (Write16(qtype) + Write16(CLASS_IN)));
            |s| == |pre| + |enc| + 4 && Read16(s[|pre| + |enc|..]) == qtype
  {
    var s := pre + (enc + (Write16(qtype) + Write16(CLASS_IN)));
    assert s[|pre| + |enc|..] == Write16(qtype) + Write16(CLASS_IN);
    ReadWrite16(qtype, Write16(CLASS_IN));
  }

  lemma ParseOneQuestion(s: seq<byte>, d: Decoded)
    requires |s| >= 12 && Read16(s[2..]) == 0 && Read16(s[4..]) == 1 && Read16(s[6..]) == 0
    requires DecodeName(s, 12) == Some(d) && d.next + 4 <= |s|
    ensures Parse(s) == Some(Message(false, Read16(s), d.name, Read16(s[d.next..]), []))
  {
    var c := Cursor(Message(false, Read16(s), [], 0, []), 12);
    var q := ReadQuestion(s, c, true).value;
    assert ReadQuestions(s, q, 1, 1) == Some(q);
    assert ReadQuestions(s, c, 0, 1) == Some(q);
  }

  /**
   * A query is parsed back to its transaction, canonical name and type; only a name that cannot be encoded gives
   * none.
   */
  lemma QueryRoundTrip(name: Name, txn: u16, aaaa: bool)
    ensures EncodeName(name).None? <==> EncodeQuery(name, txn, aaaa) == []
    ensures EncodeName(name).Some? ==>
              Parse(EncodeQuery(name, txn, aaaa)) == Some(Message(false, txn, Canonical(name), QueryType(aaaa), []))
  {
    if EncodeName(name).Some? {
      var enc, tail := EncodeName(name).value, Write16(QueryType(aaaa)) + Write16(CLASS_IN);
      ReadHeader(txn, enc + tail);
      EncodeThenDecode(name, QueryHeader(txn), tail);
      ReadQueryTail(QueryHeader(txn), enc, QueryType(aaaa));
      ParseOneQuestion(EncodeQuery(name, txn, aaaa), Decoded(Canonical(name), 12 + |enc|));
    }
  }

  // ---- The procedures ----

  /** Bytes already written, followed by an encoding if there is one. */
  function Prefixed(out: seq<byte>, enc: Option<seq<byte>>): (r: Option<seq<byte>>)
  {
    match enc
    case None => None
    case Some(s) => Some(out + s)
  }

  lemma PrefixedJoin(out: seq<byte>, tag: seq<byte>, rest: Option<seq<byte>>)
    requires |tag| <= 63
    ensures Prefixed(out, Joined(tag, rest)) == Prefixed(out + [|tag|] + tag, rest)
  {
    if rest.Some? {
      assert out + ([|tag|] + tag + rest.value) == out + [|tag|] + tag + rest.value;
    }
  }

  method FindLabelEnd(name: Name, i: nat) returns (end: nat)
    requires i <= |name|
    ensures end == LabelEnd(name, i)
  {
    end := i;
    while end < |name| && name[end] != DOT
      invariant i <= end <= |name| && LabelEnd(name, end) == LabelEnd(name, i)
    {
      end := end + 1;
    }
  }

  /** Nothing is returned for a name that cannot be encoded; bytes written before that is found out are dropped. */
  method AppendName(prefix: seq<byte>, name: Name) returns (r: Option<seq<byte>>)
    ensures r == Prefixed(prefix, EncodeName(name))
  {
    var out: seq<byte>, size: nat, i: nat := prefix, 0, 0;
    while i < |name|
      invariant Prefixed(out, EncodeFrom(name, i, size)) == Prefixed(prefix, EncodeName(name))
      decreases |name| - i
    {
      var end := FindLabelEnd(name, i);
      var length := end - i;
      if length == 0 || length > 63 || size + 1 + length > 255 {
        return None;
      }
      PrefixedJoin(out, name[i..end], EncodeFrom(name, end + 1, size + 1 + length));
      out := out + [length] + name[i..end];
      size := size + 1 + length;
      i := end + 1;
    }
    return Some(out + [0]);
  }

  method ReadName(s: seq<byte>, off: nat) returns (r: Option<Decoded>)
    ensures r == DecodeName(s, off)
  {
    var name: Name, cur, jumps, total, after: Option<nat> := [], off, 0, 0, None;
    while true
      invariant jumps <= 16 && |name| <= total <= 255 && (after.Some? ==> after.value <= |s|)
      invariant DecodeFrom(s, cur, name, after, jumps, total) == DecodeName(s, off)
      decreases 16 - jumps, 255 - total
    {
      var item := ItemAt(s, cur);
      match item {
        case Malformed => return None;
        case End => return Some(Decoded(name, if after.Some? then after.value else cur + 1));
        case Pointer(target) =>
          if after.None? {
            after := Some(cur + 2);
          }
          if jumps + 1 > 16 {
            return None;
          }
          cur, jumps := target, jumps + 1;
        case Label(tag) =>
          if total + 1 + |tag| > 255 {
            return None;
          }
          name := WithLabel(name, tag);
          total, cur := total + 1 + |tag|, cur + 1 + |tag|;
      }
    }
  }

  method TakeQuestion(s: seq<byte>, c: Cursor, first: bool) returns (r: Option<Cursor>)
    ensures r == ReadQuestion(s, c, first)
  {
    var d := ReadName(s, c.off);
    if d.None? || d.value.next + 4 > |s| {
      return None;
    }
    var m, next := c.message, d.value.next;
    if first {
      m := m.(question := d.value.name, qtype := Read16(s[next..]));
    }
    return Some(Cursor(m, next + 4));
  }

  method TakeQuestions(s: seq<byte>, start: Cursor, count: nat) returns (r: Option<Cursor>)
    requires start.off <= |s|
    ensures r == ReadQuestions(s, start, 0, count)
  {
    var c := start;
    for i := 0 to count
      invariant c.off <= |s| && ReadQuestions(s, c, i, count) == ReadQuestions(s, start, 0, count)
    {
      var next := TakeQuestion(s, c, i == 0);
      if next.None? {
        return None;
      }
      c := next.value;
    }
    return Some(c);
  }

  method TakeAnswer(s: seq<byte>, c: Cursor) returns (r: Option<Cursor>)
    ensures r == ReadAnswer(s, c)
  {
    var d := ReadName(s, c.off);
    if d.None? || d.value.next + 10 > |s| {
      return None;
    }
    var next := d.value.next;
    var size, start := Read16(s[next + 8..]), next + 10;
    if start + size > |s| {
      return None;
    }
    var address := RecordAddress(Read16(s[next..]), Read16(s[next + 2..]), s[start..start + size]);
    var m := c.message;
    if address.Some? {
      m := m.(answers := m.answers + [Answer(d.value.name, address.value)]);
    }
    return Some(Cursor(m, start + size));
  }

  method TakeAnswers(s: seq<byte>, start: Cursor, count: nat) returns (r: Option<Message>)
    ensures r == ReadAnswers(s, start, 0, count)
  {
    var c := start;
    for i := 0 to count
      invariant ReadAnswers(s, c, i, count) == ReadAnswers(s, start, 0, count)
    {
      var next := TakeAnswer(s, c);
      if next.None? {
        return None;
      }
      c := next.value;
    }
    return Some(c.message);
  }

  method ParseDnsMessage(s: seq<byte>) returns (r: Option<Message>)
    ensures r == Parse(s)
  {
    if |s| < 12 {
      return None;
    }
    var c := Cursor(Message(Read16(s[2..]) >= 0x8000, Read16(s), [], 0, []), 12);
    var asked := TakeQuestions(s, c, Read16(s[4..]));
    if asked.None? {
      return None;
    }
    r := TakeAnswers(s, asked.value, Read16(s[6..]));
  }
}
