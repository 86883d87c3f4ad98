/** Bytes, fixed-width unsigned integers in network byte order, and the sequence helpers shared by every codec. */
module Bytes {

  type byte = x: int | 0 <= x < 0x100
  type u16 = x: int | 0 <= x < 0x1_0000
  type u32 = x: int | 0 <= x < 0x1_0000_0000
  type u64 = x: int | 0 <= x < 0x1_0000_0000_0000_0000

  datatype Option<+T> = None | Some(value: T)

  // ---- Big-endian integers ----

  function Write16(v: u16): (r: seq<byte>)
    ensures |r| == 2
  {
    [v / 0x100, v % 0x100]
  }

  function Read16(s: seq<byte>): (r: u16)
    requires |s| >= 2
  {
    var hi: int := s[0];
    hi * 0x100 + s[1]
  }

  function Write32(v: u32): (r: seq<byte>)
    ensures |r| == 4
  {
    Write16(v / 0x1_0000) + Write16(v % 0x1_0000)
  }

  function Read32(s: seq<byte>): (r: u32)
    requires |s| >= 4
  {
    var hi: int := Read16(s);
    hi * 0x1_0000 + Read16(s[2..])
  }

  function Write64(v: u64): (r: seq<byte>)
    ensures |r| == 8
  {
    Write32(v / 0x1_0000_0000) + Write32(v % 0x1_0000_0000)
  }

  function Read64(s: seq<byte>): (r: u64)
    requires |s| >= 8
  {
    var hi: int := Read32(s);
    hi * 0x1_0000_0000 + Read32(s[4..])
  }

  lemma ReadWrite16(v: u16, rest: seq<byte>)
    ensures Read16(Write16(v) + rest) == v
  {
  }

  lemma WriteRead16(s: seq<byte>)
    requires |s| == 2
    ensures Write16(Read16(s)) == s
  {
  }

  lemma ReadWrite32(v: u32, rest: seq<byte>)
    ensures Read32(Write32(v) + rest) == v
  {
    var w := Write32(v) + rest;
    assert w[..2] == Write16(v / 0x1_0000);
    assert w[2..][0] == Write16(v % 0x1_0000)[0] && w[2..][1] == Write16(v % 0x1_0000)[1];
  }

  lemma WriteRead32(s: seq<byte>)
    requires |s| == 4
    ensures Write32(Read32(s)) == s
  {
    var hi, lo := Read16(s), Read16(s[2..]);
    assert Read32(s) / 0x1_0000 == hi && Read32(s) % 0x1_0000 == lo;
    WriteRead16(s[..2]);
    WriteRead16(s[2..]);
    assert s == s[..2] + s[2..];
  }

  lemma ReadWrite64(v: u64, rest: seq<byte>)
    ensures Read64(Write64(v) + rest) == v
  {
    var w := Write64(v) + rest;
    var hi, lo := v / 0x1_0000_0000, v % 0x1_0000_0000;
    assert w == Write32(hi) + (Write32(lo) + rest);
    ReadWrite32(hi, Write32(lo) + rest);
    assert w[4..] == Write32(lo) + rest;
    ReadWrite32(lo, rest);
  }

  // ---- Sequences of bytes ----

  function Zeros(n: nat): (r: seq<byte>)
    ensures |r| == n
  {
    seq(n, _ => 0)
  }

  lemma Assoc(a: seq<byte>, b: seq<byte>, c: seq<byte>)
    ensures a + b + c == a + (b + c)
  {
  }

  // ---- Exclusive or, bit by bit ----

  function XorBits(a: nat, b: nat, n: nat): (r: nat)
  {
    if n == 0 then 0 else (a % 2 + b % 2) % 2 + 2 * XorBits(a / 2, b / 2, n - 1)
  }

  function Pow2(n: nat): (r: nat)
    ensures r >= 1
  {
    if n == 0 then 1 else 2 * Pow2(n - 1)
  }

  lemma {:induction false} XorBitsBound(a: nat, b: nat, n: nat)
    ensures XorBits(a, b, n) < Pow2(n)
  {
    if n > 0 {
      XorBitsBound(a / 2, b / 2, n - 1);
    }
  }

  lemma HalfSplit(bit: nat, rest: nat)
    requires bit < 2
    ensures (bit + 2 * rest) % 2 == bit && (bit + 2 * rest) / 2 == rest
  {
  }

  lemma {:induction false} XorBitsInvolution(a: nat, b: nat, n: nat)
    requires a < Pow2(n)
    ensures XorBits(XorBits(a, b, n), b, n) == a
  {
    if n > 0 {
      XorBitsInvolution(a / 2, b / 2, n - 1);
      HalfSplit((a % 2 + b % 2) % 2, XorBits(a / 2, b / 2, n - 1));
    }
  }

  lemma Pow2Of8()
    ensures Pow2(8) == 0x100
  {
    assert Pow2(4) == 16;
    assert Pow2(8) == 2 * (2 * (2 * (2 * Pow2(4))));
  }

  function Xor(a: byte, b: byte): (r: byte)
  {
    XorBitsBound(a, b, 8);
    Pow2Of8();
    XorBits(a, b, 8)
  }

  lemma XorInvolution(a: byte, b: byte)
    ensures Xor(Xor(a, b), b) == a
  {
    Pow2Of8();
    XorBitsInvolution(a, b, 8);
  }

  // ---- Decimal rendering ----

  function Decimal(n: nat): (s: string)
    ensures s != []
    ensures forall i :: 0 <= i < |s| ==> '0' <= s[i] <= '9'
  {
    var digit := ('0' as int + n % 10) as char;
    if n < 10 then [digit] else Decimal(n / 10) + [digit]
  }

  lemma {:induction false} DecimalInjective(m: nat, n: nat)
    requires Decimal(m) == Decimal(n)
    ensures m == n
  {
    var dm, dn := Decimal(m), Decimal(n);
    assert dm[|dm| - 1] == ('0' as int + m % 10) as char;
    assert dn[|dn| - 1] == ('0' as int + n % 10) as char;
    assert m % 10 == n % 10;
    if m >= 10 {
      assert dm[..|dm| - 1] == Decimal(m / 10);
    }
    if n >= 10 {
      assert dn[..|dn| - 1] == Decimal(n / 10);
    }
    if m >= 10 && n >= 10 {
      DecimalInjective(m / 10, n / 10);
    }
  }
}
