/** Bytes and the big-endian integers of encoding/binary. */
module Bytes {
  type Byte = x: int | 0 <= x < 256

  function Uint16(b: seq<Byte>): (n: nat)
    requires |b| == 2
    ensures n < 0x1_0000
  {
    var hi: int := b[0];
    hi * 0x100 + b[1]
  }

  function PutUint16(n: nat): (b: seq<Byte>)
    requires n < 0x1_0000
    ensures |b| == 2 && Uint16(b) == n
  {
    [n / 0x100, n % 0x100]
  }

  function Uint32(b: seq<Byte>): (n: nat)
    requires |b| == 4
    ensures n < 0x1_0000_0000
  {
    Uint16(b[..2]) * 0x1_0000 + Uint16(b[2..])
  }

  function PutUint32(n: nat): (b: seq<Byte>)
    requires n < 0x1_0000_0000
    ensures |b| == 4 && Uint32(b) == n
  {
    var hi, lo := PutUint16(n / 0x1_0000), PutUint16(n % 0x1_0000);
    assert (hi + lo)[..2] == hi && (hi + lo)[2..] == lo;
    hi + lo
  }

  function Uint64(b: seq<Byte>): (n: nat)
    requires |b| == 8
    ensures n < 0x1_0000_0000_0000_0000
  {
    Uint32(b[..4]) * 0x1_0000_0000 + Uint32(b[4..])
  }

  function PutUint64(n: nat): (b: seq<Byte>)
    requires n < 0x1_0000_0000_0000_0000
    ensures |b| == 8 && Uint64(b) == n
  {
    var hi, lo := PutUint32(n / 0x1_0000_0000), PutUint32(n % 0x1_0000_0000);
    assert (hi + lo)[..4] == hi && (hi + lo)[4..] == lo;
    hi + lo
  }

  /** Reading is injective: two bytes are the big-endian form of the number they spell. */
  lemma PutOfUint16(b: seq<Byte>)
    requires |b| == 2
    ensures PutUint16(Uint16(b)) == b
  {
    var hi: int := b[0];
    assert (hi * 0x100 + b[1]) / 0x100 == hi;
  }

  lemma PutOfUint32(b: seq<Byte>)
    requires |b| == 4
    ensures PutUint32(Uint32(b)) == b
  {
    var hi, lo := Uint16(b[..2]), Uint16(b[2..]);
    assert (hi * 0x1_0000 + lo) / 0x1_0000 == hi && (hi * 0x1_0000 + lo) % 0x1_0000 == lo;
    PutOfUint16(b[..2]);
    PutOfUint16(b[2..]);
    assert b == b[..2] + b[2..];
  }

  /** Valid UTF-8 as in section 4 of RFC 3629. */
  predicate ValidUtf8(s: seq<Byte>) {
    if s == [] then true
    else if s[0] < 0x80 then ValidUtf8(s[1..])
    else if 0xC2 <= s[0] <= 0xDF then |s| >= 2 && Tail(s[1]) && ValidUtf8(s[2..])
    else if 0xE0 <= s[0] <= 0xEF then
      |s| >= 3 && Tail(s[1]) && Tail(s[2]) && (s[0] == 0xE0 ==> s[1] >= 0xA0) && (s[0] == 0xED ==> s[1] <= 0x9F)
      && ValidUtf8(s[3..])
    else if 0xF0 <= s[0] <= 0xF4 then
      |s| >= 4 && Tail(s[1]) && Tail(s[2]) && Tail(s[3]) && (s[0] == 0xF0 ==> s[1] >= 0x90)
      && (s[0] == 0xF4 ==> s[1] <= 0x8F) && ValidUtf8(s[4..])
    else false
  }

  predicate Tail(b: Byte) {
    0x80 <= b <= 0xBF
  }
}
