module Octet {

  /** `uint8_t`: addition wraps at 256 and `^` is exclusive or. */
  type Byte = bv8

  lemma ByteRoundTrip(n: nat)
    requires n < 0x100
    ensures (n as bv8) as int == n
  {
  }

  lemma ByteBack(b: Byte)
    ensures 0 <= b as int < 0x100 && (b as int) as bv8 == b
  {
  }
}

/** Byte strings and the four-byte big-endian lengths that both wire formats use. */
module Bytes {
  import opened Octet

  /** One past the largest `uint32_t`. */
  const TWO_32: nat := 0x1_0000_0000

  /** One past the largest `size_t`. */
  const TWO_64: nat := 0x1_0000_0000_0000_0000

  /** The four bytes of a `uint32_t`, most significant first. */
  function WriteU32(v: nat): (s: seq<Byte>)
    requires v < TWO_32
    ensures |s| == 4
  {
    [(v / 0x100_0000) as Byte, (v / 0x1_0000 % 0x100) as Byte, (v / 0x100 % 0x100) as Byte, (v % 0x100) as Byte]
  }

  function ReadU32(s: seq<Byte>): (v: nat)
    requires |s| >= 4
    ensures v < TWO_32
  {
    s[0] as int * 0x100_0000 + s[1] as int * 0x1_0000 + s[2] as int * 0x100 + s[3] as int
  }

  lemma Digits(v: nat)
    ensures v == v / 0x100_0000 * 0x100_0000 + v / 0x1_0000 % 0x100 * 0x1_0000 + v / 0x100 % 0x100 * 0x100 + v % 0x100
  {
    var d1, d2 := v / 0x100, v / 0x1_0000;
    assert d1 / 0x100 == d2 && d2 / 0x100 == v / 0x100_0000;
  }

  lemma U32RoundTrip(v: nat, rest: seq<Byte>)
    requires v < TWO_32
    ensures ReadU32(WriteU32(v) + rest) == v
  {
    Digits(v);
    FourBytes(v / 0x100_0000, v / 0x1_0000 % 0x100, v / 0x100 % 0x100, v % 0x100, rest);
  }

  lemma FourBytes(a: nat, b: nat, c: nat, d: nat, rest: seq<Byte>)
    requires a < 0x100 && b < 0x100 && c < 0x100 && d < 0x100
    ensures ReadU32([a as Byte, b as Byte, c as Byte, d as Byte] + rest)
         == a * 0x100_0000 + b * 0x1_0000 + c * 0x100 + d
  {
    ByteRoundTrip(a);
    ByteRoundTrip(b);
    ByteRoundTrip(c);
    ByteRoundTrip(d);
  }

  /** Only the first four bytes matter. */
  lemma ReadU32Prefix(s: seq<Byte>, rest: seq<Byte>)
    requires |s| >= 4
    ensures ReadU32(s + rest) == ReadU32(s)
  {
    assert (s + rest)[0] == s[0] && (s + rest)[1] == s[1] && (s + rest)[2] == s[2] && (s + rest)[3] == s[3];
  }

  /** Writing what was read gives the four bytes back. */
  lemma ReadWriteU32(s: seq<Byte>)
    requires |s| >= 4
    ensures WriteU32(ReadU32(s)) == s[..4]
  {
    ByteBack(s[0]);
    ByteBack(s[1]);
    ByteBack(s[2]);
    ByteBack(s[3]);
    hide WriteU32;
    WriteDigits(ReadU32(s), s[0], s[1], s[2], s[3]);
    assert s[..4] == [s[0], s[1], s[2], s[3]];
  }

  lemma WriteDigits(v: nat, a: Byte, b: Byte, c: Byte, d: Byte)
    requires v < TWO_32
    requires v == a as int * 0x100_0000 + b as int * 0x1_0000 + c as int * 0x100 + d as int
    ensures WriteU32(v) == [a, b, c, d]
  {
    Undigits(v, a as int, b as int, c as int, d as int);
    ByteBack(a);
    ByteBack(b);
    ByteBack(c);
    ByteBack(d);
  }

  lemma Undigits(v: nat, a: nat, b: nat, c: nat, d: nat)
    requires a < 0x100 && b < 0x100 && c < 0x100 && d < 0x100
    requires v == a * 0x100_0000 + b * 0x1_0000 + c * 0x100 + d
    ensures v / 0x100_0000 == a && v / 0x1_0000 % 0x100 == b && v / 0x100 % 0x100 == c && v % 0x100 == d
  {
  }

  /** Four bytes as a number, most significant first. */
  function Quad(s: seq<Byte>, at: nat): int
    requires at + 4 <= |s|
  {
    ((s[at] as int * 0x100 + s[at + 1] as int) * 0x100 + s[at + 2] as int) * 0x100 + s[at + 3] as int
  }

  lemma ReadIsQuad(s: seq<Byte>, at: nat)
    requires at + 4 <= |s|
    ensures ReadU32(s[at..]) == Quad(s, at)
  {
    assert s[at..][0] == s[at] && s[at..][1] == s[at + 1] && s[at..][2] == s[at + 2] && s[at..][3] == s[at + 3];
  }

  /** A written number stands in its four bytes, most significant first. */
  lemma WrittenQuad(v: nat, rest: seq<Byte>)
    requires v < TWO_32
    ensures Quad(WriteU32(v) + rest, 0) == v
  {
    hide WriteU32, ReadU32, Quad;
    U32RoundTrip(v, rest);
    ReadIsQuad(WriteU32(v) + rest, 0);
    assert (WriteU32(v) + rest)[0..] == WriteU32(v) + rest;
  }
}
