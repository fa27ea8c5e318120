/**
 * The fixed-width little-endian encoding of unsigned 64-bit integers that the
 * bucket engine uses for every value it keeps in shared data
 * (`binary.LittleEndian.PutUint64` and `binary.LittleEndian.Uint64`).
 */
module Codec {

  /** One byte of a stored value. */
  type Byte = b: int | 0 <= b < 256

  const TWO_64: int := 0x1_0000_0000_0000_0000

  /** Go's `uint64`. */
  type U64 = x: int | 0 <= x < TWO_64

  /** 256 raised to `n`: the number of values `n` bytes can hold. */
  function Pow256(n: nat): (p: nat)
    ensures p >= 1
  {
    if n == 0 then 1 else 256 * Pow256(n - 1)
  }

  lemma Pow256Eight()
    ensures Pow256(8) == TWO_64
  {
  }

  /** The `n` low-order bytes of `x`, least significant first. */
  function LittleEndian(x: nat, n: nat): (b: seq<Byte>)
    ensures |b| == n
  {
    if n == 0 then [] else [x % 256] + LittleEndian(x / 256, n - 1)
  }

  /** The number whose little-endian bytes are `b`. */
  function FromLittleEndian(b: seq<Byte>): (x: nat)
    ensures x < Pow256(|b|)
  {
    if b == [] then 0 else b[0] + 256 * FromLittleEndian(b[1..])
  }

  /** `binary.LittleEndian.PutUint64` into a fresh 8-byte buffer. */
  function PutUint64(x: U64): (b: seq<Byte>)
    ensures |b| == 8
  {
    LittleEndian(x, 8)
  }

  /** `binary.LittleEndian.Uint64`: reads the first eight bytes; shorter input panics in Go. */
  function Uint64(b: seq<Byte>): (x: U64)
    requires |b| >= 8
    // the first byte is the least significant one
    ensures x % 256 == b[0]
  {
    var b0, b1, b2, b3, b4, b5, b6, b7: int := b[0], b[1], b[2], b[3], b[4], b[5], b[6], b[7];
    b0 + 256 * (b1 + 256 * (b2 + 256 * (b3 + 256 * (b4 + 256 * (b5 + 256 * (b6 + 256 * b7))))))
  }

  /** The decoder reads the same number as the general little-endian reading of the first eight bytes. */
  lemma Uint64IsFromLittleEndian(b: seq<Byte>)
    requires |b| >= 8
    ensures Uint64(b) == FromLittleEndian(b[..8])
  {
    var c := b[..8];
    calc {
      FromLittleEndian(c);
      b[0] + 256 * FromLittleEndian(c[1..]);
      b[0] + 256 * (b[1] + 256 * FromLittleEndian(c[2..]));
      { assert c[2..][1..] == c[3..]; }
      b[0] + 256 * (b[1] + 256 * (b[2] + 256 * FromLittleEndian(c[3..])));
      { assert c[3..][1..] == c[4..]; }
      b[0] + 256 * (b[1] + 256 * (b[2] + 256 * (b[3] + 256 * FromLittleEndian(c[4..]))));
      { assert c[4..][1..] == c[5..]; }
      b[0] + 256 * (b[1] + 256 * (b[2] + 256 * (b[3] + 256 * (b[4] + 256 * FromLittleEndian(c[5..])))));
      { assert c[5..][1..] == c[6..]; }
      b[0] + 256 * (b[1] + 256 * (b[2] + 256 * (b[3] + 256 * (b[4] + 256 * (b[5] + 256 * FromLittleEndian(c[6..]))))));
      { assert c[6..][1..] == c[7..]; assert c[7..][1..] == []; }
      Uint64(b);
    }
  }

  lemma {:induction false} LittleEndianRoundTrip(x: nat, n: nat)
    requires x < Pow256(n)
    ensures FromLittleEndian(LittleEndian(x, n)) == x
  {
    if n > 0 {
      assert x / 256 < Pow256(n - 1);
      LittleEndianRoundTrip(x / 256, n - 1);
      assert LittleEndian(x, n)[1..] == LittleEndian(x / 256, n - 1);
    }
  }

  lemma {:induction false} FromLittleEndianRoundTrip(b: seq<Byte>)
    ensures LittleEndian(FromLittleEndian(b), |b|) == b
  {
    if b != [] {
      var y := FromLittleEndian(b[1..]);
      assert (b[0] + 256 * y) % 256 == b[0];
      assert (b[0] + 256 * y) / 256 == y;
      FromLittleEndianRoundTrip(b[1..]);
    }
  }

  /** Decoding an encoded number gives the number back. */
  lemma Uint64RoundTrip(x: U64)
    ensures Uint64(PutUint64(x)) == x
  {
    Pow256Eight();
    Uint64IsFromLittleEndian(PutUint64(x));
    LittleEndianRoundTrip(x, 8);
    assert PutUint64(x)[..8] == PutUint64(x);
  }

  /** Encoding the number held in eight bytes gives the same eight bytes back. */
  lemma PutUint64RoundTrip(b: seq<Byte>)
    requires |b| == 8
    ensures PutUint64(Uint64(b)) == b
  {
    assert b[..8] == b;
    Uint64IsFromLittleEndian(b);
    FromLittleEndianRoundTrip(b);
  }

  /** Distinct numbers have distinct encodings. */
  lemma PutUint64Injective(x: U64, y: U64)
    requires PutUint64(x) == PutUint64(y)
    ensures x == y
  {
    Uint64RoundTrip(x);
    Uint64RoundTrip(y);
  }
}
