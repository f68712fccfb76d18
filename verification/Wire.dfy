/** Bytes, fixed-width integers in host (little-endian) order, and flattening of byte strings. */
module Wire {
  type byte = x: int | 0 <= x < 0x100
  type bytes = seq<byte>
  type uint16 = x: int | 0 <= x < 0x1_0000
  type uint32 = x: int | 0 <= x < 0x1_0000_0000
  type int32 = x: int | -0x8000_0000 <= x < 0x8000_0000

  const INT_MAX: int := 0x7fff_ffff

  /** The conversion of a mathematical integer to a 32-bit signed int: two's complement truncation. */
  function ToInt32(x: int): (r: int32)
  {
    var u := x % 0x1_0000_0000;
    if u > INT_MAX then u - 0x1_0000_0000 else u
  }

  function EncodeU16(u: uint16): (b: bytes)
    ensures |b| == 2
  {
    [u % 0x100, u / 0x100]
  }

  function DecodeU16(b: bytes): uint16
    requires |b| >= 2
  {
    var lo: int, hi: int := b[0], b[1];
    lo + 0x100 * hi
  }

  function EncodeU32(u: uint32): (b: bytes)
    ensures |b| == 4
  {
    [u % 0x100, u / 0x100 % 0x100, u / 0x1_0000 % 0x100, u / 0x100_0000]
  }

  function DecodeU32(b: bytes): uint32
    requires |b| >= 4
  {
    var b0: int, b1: int, b2: int, b3: int := b[0], b[1], b[2], b[3];
    b0 + 0x100 * b1 + 0x1_0000 * b2 + 0x100_0000 * b3
  }

  function EncodeI32(v: int32): (b: bytes)
    ensures |b| == 4
  {
    EncodeU32(v % 0x1_0000_0000)
  }

  function DecodeI32(b: bytes): int32
    requires |b| >= 4
  {
    var u: int := DecodeU32(b);
    if u > INT_MAX then u - 0x1_0000_0000 else u
  }

  lemma U32RoundTrip(u: uint32, tail: bytes)
    ensures DecodeU32(EncodeU32(u) + tail) == u
  {
    var b, e := EncodeU32(u) + tail, EncodeU32(u);
    assert b[0] == e[0] && b[1] == e[1] && b[2] == e[2] && b[3] == e[3];
    assert u / 0x100 == u / 0x100 % 0x100 + 0x100 * (u / 0x1_0000);
    assert u / 0x1_0000 == u / 0x1_0000 % 0x100 + 0x100 * (u / 0x100_0000);
  }

  lemma U32RoundTripBack(b: bytes)
    requires |b| == 4
    ensures EncodeU32(DecodeU32(b)) == b
  {
    U32Digits(b[0], b[1], b[2], b[3]);
    assert b == [b[0], b[1], b[2], b[3]];
  }

  lemma U32Digits(b0: int, b1: int, b2: int, b3: int)
    requires 0 <= b0 < 0x100 && 0 <= b1 < 0x100 && 0 <= b2 < 0x100 && 0 <= b3 < 0x100
    ensures var u := b0 + 0x100 * b1 + 0x1_0000 * b2 + 0x100_0000 * b3;
      u % 0x100 == b0 && u / 0x100 % 0x100 == b1 && u / 0x1_0000 % 0x100 == b2 && u / 0x100_0000 == b3
  {
    var u := b0 + 0x100 * b1 + 0x1_0000 * b2 + 0x100_0000 * b3;
    assert u / 0x100 == b1 + 0x100 * b2 + 0x1_0000 * b3;
    assert u / 0x1_0000 == b2 + 0x100 * b3;
  }

  lemma I32RoundTrip(v: int32, tail: bytes)
    ensures DecodeI32(EncodeI32(v) + tail) == v
  {
    U32RoundTrip(v % 0x1_0000_0000, tail);
    assert v % 0x1_0000_0000 == if v < 0 then v + 0x1_0000_0000 else v;
  }

  lemma I32RoundTripBack(b: bytes)
    requires |b| == 4
    ensures EncodeI32(DecodeI32(b)) == b
  {
    U32RoundTripBack(b);
    assert DecodeI32(b) % 0x1_0000_0000 == DecodeU32(b);
  }

  /** Decoding looks at the first four bytes only. */
  lemma DecodeI32Prefix(b: bytes, tail: bytes)
    requires |b| >= 4
    ensures DecodeI32(b + tail) == DecodeI32(b)
  {
  }

  /** The number that a string of bytes is, least significant byte first. */
  function LittleEndian(b: bytes): nat {
    if b == [] then 0 else b[0] + 0x100 * LittleEndian(b[1..])
  }

  /** All integers are read least significant byte first; a signed one is its 32 bits in two's complement. */
  lemma IntegersAreLittleEndian(b: bytes)
    requires |b| >= 2
    ensures DecodeU16(b) == LittleEndian(b[..2])
    ensures |b| >= 4 ==> DecodeU32(b) == LittleEndian(b[..4])
    ensures |b| >= 4 ==> (DecodeI32(b) - LittleEndian(b[..4])) % 0x1_0000_0000 == 0
  {
    TwoBytes(b[0], b[1], []);
    assert b[..2] == [b[0], b[1]] + [];
    if |b| >= 4 {
      TwoBytes(b[2], b[3], []);
      TwoBytes(b[0], b[1], [b[2], b[3]]);
      assert b[..4] == [b[0], b[1]] + [b[2], b[3]] && [b[2], b[3]] + [] == [b[2], b[3]];
    }
  }

  lemma TwoBytes(x: byte, y: byte, more: bytes)
    ensures LittleEndian([x, y] + more) == x + 0x100 * y + 0x1_0000 * LittleEndian(more)
  {
    var b := [x, y] + more;
    assert b[1..] == [y] + more && b[1..][1..] == more;
  }

  /** Truncation to int keeps the number modulo 2^32. */
  lemma ToInt32Wraps(x: int)
    ensures -0x8000_0000 <= ToInt32(x) < 0x8000_0000 && (x - ToInt32(x)) % 0x1_0000_0000 == 0
  {
  }

  lemma U16RoundTrip(u: uint16, tail: bytes)
    ensures DecodeU16(EncodeU16(u) + tail) == u
  {
    var b, e := EncodeU16(u) + tail, EncodeU16(u);
    assert b[0] == e[0] && b[1] == e[1];
  }

  function Flatten<T>(parts: seq<seq<T>>): seq<T>
  {
    if parts == [] then [] else parts[0] + Flatten(parts[1..])
  }

  lemma {:induction false} FlattenAppend<T>(a: seq<seq<T>>, b: seq<seq<T>>)
    ensures Flatten(a + b) == Flatten(a) + Flatten(b)
  {
    if a == [] {
      assert a + b == b;
    } else {
      FlattenAppend(a[1..], b);
      assert (a + b)[1..] == a[1..] + b;
      SumOfThree(a[0], Flatten(a[1..]), Flatten(b));
    }
  }

  lemma SumOfThree<T>(a: seq<T>, b: seq<T>, c: seq<T>)
    ensures a + b + c == a + (b + c)
  {
  }

  lemma StartOfSum<T>(a: seq<T>, b: seq<T>, c: seq<T>)
    ensures a <= a + b + c
  {
    assert a + b + c == a + (b + c);
  }

  lemma FlattenSingle<T>(a: seq<seq<T>>, x: seq<T>)
    ensures Flatten(a + [x]) == Flatten(a) + x
  {
    FlattenAppend(a, [x]);
    assert Flatten([x]) == x;
  }

  lemma FlattenPrefix<T>(a: seq<seq<T>>, b: seq<seq<T>>)
    requires a <= b
    ensures Flatten(a) <= Flatten(b)
  {
    assert b == a + b[|a|..];
    FlattenAppend(a, b[|a|..]);
  }
}
