/** Bytes and the little-endian integer encodings that `DataView.setUint16` and
    `DataView.setUint32` produce when their `littleEndian` argument is true. */
module LittleEndian {

  /** One octet of an `ArrayBuffer`. */
  type Byte = b: int | 0 <= b < 256

  const TWO_16: int := 0x1_0000
  const TWO_32: int := 0x1_0000_0000

  /** ToUint16: the value modulo 2^16 (mathematical modulo, never negative). */
  function ToUint16(v: int): (w: nat)
    ensures w < TWO_16
    ensures (v - w) % TWO_16 == 0
  {
    v % TWO_16
  }

  /** ToUint32: the value modulo 2^32 (mathematical modulo, never negative). */
  function ToUint32(v: int): (w: nat)
    ensures w < TWO_32
    ensures (v - w) % TWO_32 == 0
  {
    v % TWO_32
  }

  /** The two bytes `setUint16(o, v, true)` stores, lowest first. */
  function Uint16Le(v: int): (r: seq<Byte>)
    ensures |r| == 2
  {
    var w := ToUint16(v);
    [w % 256, w / 256]
  }

  /** The four bytes `setUint32(o, v, true)` stores, lowest first. */
  function Uint32Le(v: int): (r: seq<Byte>)
    ensures |r| == 4
  {
    var w := ToUint32(v);
    [w % 256, (w / 256) % 256, (w / 256 / 256) % 256, w / 256 / 256 / 256]
  }

  /** The unsigned 16-bit value stored little-endian at offset `o`. */
  function ReadUint16Le(s: seq<Byte>, o: nat): (v: nat)
    requires o + 2 <= |s|
    ensures v < TWO_16
  {
    s[o] as int + 256 * s[o + 1] as int
  }

  /** The unsigned 32-bit value stored little-endian at offset `o`. */
  function ReadUint32Le(s: seq<Byte>, o: nat): (v: nat)
    requires o + 4 <= |s|
    ensures v < TWO_32
  {
    s[o] as int + 256 * (s[o + 1] as int + 256 * (s[o + 2] as int + 256 * s[o + 3] as int))
  }

  /** Reading back what `setUint16` wrote gives the value modulo 2^16,
      whatever bytes surround it. */
  lemma ReadUint16LeOfUint16Le(before: seq<Byte>, v: int, after: seq<Byte>)
    ensures ReadUint16Le(before + Uint16Le(v) + after, |before|) == ToUint16(v)
  {
    var s := before + Uint16Le(v) + after;
    var w := ToUint16(v);
    assert s[|before|] == w % 256 && s[|before| + 1] == w / 256;
    DivMod256(w % 256, w / 256);
  }

  /** Reading back what `setUint32` wrote gives the value modulo 2^32,
      whatever bytes surround it. */
  lemma ReadUint32LeOfUint32Le(before: seq<Byte>, v: int, after: seq<Byte>)
    ensures ReadUint32Le(before + Uint32Le(v) + after, |before|) == ToUint32(v)
  {
    var s := before + Uint32Le(v) + after;
    var w := ToUint32(v);
    var o := |before|;
    assert s[o..o + 4] == Uint32Le(v);
    DivMod256(w % 256, w / 256);
    DivMod256(w / 256 % 256, w / 256 / 256);
    DivMod256(w / 256 / 256 % 256, w / 256 / 256 / 256);
  }

  /** Conversely, encoding the value read at `o` rewrites the same two bytes. */
  lemma Uint16LeOfReadUint16Le(s: seq<Byte>, o: nat)
    requires o + 2 <= |s|
    ensures Uint16Le(ReadUint16Le(s, o)) == s[o..o + 2]
  {
    var v := ReadUint16Le(s, o);
    assert ToUint16(v) == v;
    DivMod256(s[o], s[o + 1]);
  }

  /** Conversely, encoding the value read at `o` rewrites the same four bytes. */
  lemma Uint32LeOfReadUint32Le(s: seq<Byte>, o: nat)
    requires o + 4 <= |s|
    ensures Uint32Le(ReadUint32Le(s, o)) == s[o..o + 4]
  {
    var v := ReadUint32Le(s, o);
    assert ToUint32(v) == v;
    var r2 := s[o + 2] as int + 256 * s[o + 3] as int;
    var r1 := s[o + 1] as int + 256 * r2;
    DivMod256(s[o], r1);
    DivMod256(s[o + 1], r2);
    DivMod256(s[o + 2], s[o + 3]);
  }

  /** Division by 256 separates a low byte from the rest. */
  lemma DivMod256(lo: int, hi: int)
    requires 0 <= lo < 256
    ensures (lo + 256 * hi) / 256 == hi && (lo + 256 * hi) % 256 == lo
  {
  }
}
