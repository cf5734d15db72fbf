/**
 Bytes, fixed-width unsigned integers and their little-endian object representation.
 Every value that crosses the wire or is pushed into a message body is copied byte by byte
 (`memcpy` of the object representation), so all codecs of the model meet here.
 */
module Bytes {

  type byte = bv8

  const TWO_32: nat := 0x1_0000_0000
  const TWO_64: nat := 0x1_0000_0000_0000_0000

  /** `uint32_t` */
  type u32 = n: nat | n < 0x1_0000_0000

  function Pow256(k: nat): (p: nat)
    ensures 0 < p
  {
    if k == 0 then 1 else 256 * Pow256(k - 1)
  }

  /** The k-byte object representation of n, least significant byte first. */
  function LittleEndian(n: nat, k: nat): (bs: seq<byte>)
    ensures |bs| == k
  {
    if k == 0 then [] else [(n % 256) as byte] + LittleEndian(n / 256, k - 1)
  }

  function FromLittleEndian(bs: seq<byte>): nat {
    if bs == [] then 0 else bs[0] as nat + 256 * FromLittleEndian(bs[1..])
  }

  lemma ByteRoundTrip(n: nat)
    requires n < 256
    ensures (n as byte) as nat == n
  {
    // The conversion is cheap to prove one sixteenth of the range at a time.
    match n / 16
    case 0 => case 1 => case 2 => case 3 => case 4 => case 5 => case 6 => case 7 =>
    case 8 => case 9 => case 10 => case 11 => case 12 => case 13 => case 14 => case _ =>
  }

  /** Reading back a number that fits in k bytes returns it. */
  lemma {:induction false} LittleEndianRoundTrip(n: nat, k: nat)
    requires n < Pow256(k)
    ensures FromLittleEndian(LittleEndian(n, k)) == n
  {
    if k > 0 {
      ByteRoundTrip(n % 256);
      LittleEndianRoundTrip(n / 256, k - 1);
      assert LittleEndian(n, k)[1..] == LittleEndian(n / 256, k - 1);
    }
  }

  /** Every byte string is the representation of the number it reads as, which fits its width. */
  lemma {:induction false} LittleEndianInverse(bs: seq<byte>)
    ensures FromLittleEndian(bs) < Pow256(|bs|)
    ensures LittleEndian(FromLittleEndian(bs), |bs|) == bs
  {
    if bs != [] {
      LittleEndianInverse(bs[1..]);
      SplitByte(bs[0] as nat, FromLittleEndian(bs[1..]));
      assert bs == [bs[0]] + bs[1..];
    }
  }

  lemma SplitByte(b: nat, rest: nat)
    requires b < 256
    ensures (b + 256 * rest) % 256 == b && (b + 256 * rest) / 256 == rest
  {
  }

  /** Byte i of the representation is digit i of the number in base 256. */
  lemma {:induction false} LittleEndianAt(n: nat, k: nat, i: nat)
    requires i < k
    ensures LittleEndian(n, k)[i] as nat == n / Pow256(i) % 256
  {
    ByteRoundTrip(n % 256);
    if i > 0 {
      LittleEndianAt(n / 256, k - 1, i - 1);
      DivideTwice(n, Pow256(i - 1));
    }
  }

  lemma DivideTwice(n: nat, p: nat)
    requires p > 0
    ensures n / 256 / p == n / (256 * p)
  {
    var q, r := n / 256 / p, n / 256 % p;
    assert n / 256 == q * p + r;
    var s := n % 256;
    assert n == 256 * (q * p + r) + s == q * (256 * p) + (256 * r + s);
    assert 256 * r + s < 256 * p;
    QuotientIs(n, 256 * p, q, 256 * r + s);
  }

  lemma QuotientIs(n: nat, d: nat, q: nat, r: nat)
    requires d > 0 && n == q * d + r && r < d
    ensures n / d == q
  {
    OnlyQuotient(d, n / d, n % d, q, r);
  }

  lemma OnlyQuotient(d: nat, q1: nat, r1: nat, q: nat, r: nat)
    requires q1 * d + r1 == q * d + r && r1 < d && r < d
    ensures q1 == q
  {
    Spread(q1, q, d);
    Spread(q, q1, d);
  }

  lemma Distribute(a: nat, b: nat, d: nat)
    ensures (a + b) * d == a * d + b * d
  {
  }

  lemma Spread(a: nat, b: nat, d: nat)
    ensures a < b ==> a * d + d <= b * d
  {
    if a < b {
      var k := b - a - 1;
      Distribute(a, k + 1, d);
      Distribute(k, 1, d);
    }
  }

  lemma Pow256Values()
    ensures Pow256(4) == TWO_32 && Pow256(8) == TWO_64
  {
    assert Pow256(2) == 0x1_0000;
    assert Pow256(4) == 0x1_0000 * Pow256(2);
    assert Pow256(6) == 0x1_0000 * Pow256(4);
    assert Pow256(8) == 0x1_0000 * Pow256(6);
  }

  function U32Bytes(n: u32): (bs: seq<byte>)
    ensures |bs| == 4
  {
    LittleEndian(n, 4)
  }

  function U32FromBytes(bs: seq<byte>): (n: u32)
    requires |bs| == 4
    ensures U32Bytes(n) == bs
  {
    Pow256Values();
    LittleEndianInverse(bs);
    FromLittleEndian(bs)
  }

  lemma U32RoundTrip(n: u32)
    ensures U32FromBytes(U32Bytes(n)) == n
  {
    Pow256Values();
    LittleEndianRoundTrip(n, 4);
  }

  function Zeros(n: nat): (bs: seq<byte>)
    ensures |bs| == n
  {
    seq(n, _ => 0 as byte)
  }

  /** The object representation of a `uint64_t` that is only ever copied, compared and scrambled. */
  type Code = bs: seq<byte> | |bs| == 8 witness Zeros(8)

  /** The representation of the 64-bit number v. */
  function CodeOf(v: bv64): Code {
    [(v & 0xff) as byte, ((v >> 8) & 0xff) as byte,
     ((v >> 16) & 0xff) as byte, ((v >> 24) & 0xff) as byte,
     ((v >> 32) & 0xff) as byte, ((v >> 40) & 0xff) as byte,
     ((v >> 48) & 0xff) as byte, ((v >> 56) & 0xff) as byte]
  }

  function CodeValue(c: Code): bv64 {
    (c[0] as bv64) | ((c[1] as bv64) << 8)
    | ((c[2] as bv64) << 16) | ((c[3] as bv64) << 24)
    | ((c[4] as bv64) << 32) | ((c[5] as bv64) << 40)
    | ((c[6] as bv64) << 48) | ((c[7] as bv64) << 56)
  }

  /** Numbers and representations correspond one to one. */
  lemma CodeRoundTrip(v: bv64, c: Code)
    ensures CodeValue(CodeOf(v)) == v && CodeOf(CodeValue(c)) == c
  {
  }
}
