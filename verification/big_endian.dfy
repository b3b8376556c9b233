/** Bytes and the big-endian integers Go's `encoding/binary` reads and writes. */
module BigEndian {

  type Byte = x: int | 0 <= x < 256

  type Bytes = seq<Byte>

  /** Conversion to `uint16` keeps the low sixteen bits; these are its two bytes. */
  function High(v: nat): Byte {
    v % 65536 / 256
  }

  function Low(v: nat): Byte {
    v % 65536 % 256
  }

  function U16(high: Byte, low: Byte): (v: nat)
    ensures v < 65536
  {
    256 * high + low
  }

  lemma U16RoundTrip(v: nat)
    ensures U16(High(v), Low(v)) == v % 65536
  {
  }

  lemma U16Bytes(high: Byte, low: Byte)
    ensures High(U16(high, low)) == high && Low(U16(high, low)) == low
  {
  }

  /** The low thirty-two bits of `v`. */
  function U32Bytes(v: nat): Bytes {
    var v1 := v / 256;
    var v2 := v1 / 256;
    [v2 / 256 % 256, v2 % 256, v1 % 256, v % 256]
  }

  function U32(b: Bytes): (v: nat)
    requires |b| == 4
    ensures v < 0x1_0000_0000
  {
    var high: int, low: int := U16(b[0], b[1]), U16(b[2], b[3]);
    65536 * high + low
  }

  lemma U32RoundTrip(v: nat)
    requires v < 0x1_0000_0000
    ensures U32(U32Bytes(v)) == v
  {
    var v1 := v / 256;
    var v2 := v1 / 256;
    var b0, b1, b2, b3 := v2 / 256, v2 % 256, v1 % 256, v % 256;
    assert v == 256 * v1 + b3 && v1 == 256 * v2 + b2 && v2 == 256 * b0 + b1;
    Four(v, v1, v2, b0, b1, b2, b3);
    assert b0 % 256 == b0;
    assert U32Bytes(v) == [b0, b1, b2, b3];
  }

  lemma Four(v: nat, v1: nat, v2: nat, b0: nat, b1: Byte, b2: Byte, b3: Byte)
    requires v == 256 * v1 + b3 && v1 == 256 * v2 + b2 && v2 == 256 * b0 + b1 && v < 0x1_0000_0000
    ensures b0 < 256 && U32([b0, b1, b2, b3]) == v
  {
  }

  lemma U32OfBytes(b: Bytes)
    requires |b| == 4
    ensures U32Bytes(U32(b)) == b
  {
    var v1 := U32(b) / 256;
    assert v1 / 256 == U16(b[0], b[1]);
  }

  /** The first byte is the most significant one, both ways. */
  lemma MostSignificantFirst(a: Byte, b: Byte, c: Byte, d: Byte)
    ensures var v := ((a * 256 + b) * 256 + c) * 256 + d;
            v >= 0 && U32([a, b, c, d]) == v && U32Bytes(v) == [a, b, c, d]
  {
    U32OfBytes([a, b, c, d]);
  }
}
