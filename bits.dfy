/**
 * Register-byte arithmetic shared by every driver model: C integer
 * conversions, bit fields of one register byte (the drivers' bit-field
 * unions), and single-bit tests.
 *
 * A register byte is a `bv8`, so that masks, shifts and bit-field accesses
 * are the bitwise operations the drivers write. Values that the drivers
 * compute with C `int` arithmetic (BCD digits, years, counts) are `int`s and
 * cross over through `U8` and `as int`.
 */
module Bits {

  /** One register byte, a C `uint8_t`. */
  type Byte = bv8

  /** The value of a one-bit C bit-field member. */
  type U1 = x: bv8 | x < 2

  /** The value of a two-bit C bit-field member. */
  type U2 = x: bv8 | x < 4

  /** The value of a three-bit C bit-field member. */
  type U3 = x: bv8 | x < 8

  /** The value of a four-bit C bit-field member. */
  type U4 = x: bv8 | x < 16

  /** C's `/` on `int`: the quotient is truncated toward zero. */
  function CDiv(a: int, b: int): (q: int)
    requires b > 0
    ensures a >= 0 ==> q == a / b
    ensures a < 0 ==> q == -((-a) / b)
  {
    if a >= 0 then a / b else -((-a) / b)
  }

  /** C's `%` on `int`: the remainder takes the sign of the dividend. */
  function CRem(a: int, b: int): (r: int)
    requires b > 0
    ensures CDiv(a, b) * b + r == a
    ensures a >= 0 ==> 0 <= r < b
    ensures a < 0 ==> -b < r <= 0
  {
    a - CDiv(a, b) * b
  }

  /** Conversion of a C `int` to `uint8_t`: the low eight bits, two's complement. */
  function U8(x: int): (r: Byte)
    ensures r as int == x % 256
  {
    (x % 256) as bv8
  }

  // ---------------------------------------------------------------------
  // Bit fields
  // ---------------------------------------------------------------------

  /** A bit field of a register byte: its lowest bit `pos` and its `mask` in place. */
  datatype BitField = BitField(pos: bv3, mask: Byte)

  /** Reading a bit field, as through a bit-field union: `(b & mask) >> pos`. */
  function Get(b: Byte, f: BitField): Byte
  {
    (b & f.mask) >> f.pos
  }

  /**
   * Writing a bit field, as through a bit-field union: the bits of `v` that
   * fit the field replace it, and no bit outside the field changes.
   */
  function Put(b: Byte, f: BitField, v: Byte): (r: Byte)
    ensures r & !f.mask == b & !f.mask
  {
    (b & !f.mask) | ((v << f.pos) & f.mask)
  }

  /** Assigning a C `int` to a bit field: only the low bits that fit are kept. */
  function Store(b: Byte, f: BitField, x: int): (r: Byte)
    ensures r & !f.mask == b & !f.mask
  {
    Put(b, f, U8(x))
  }

  /** A shift by a zero position is no shift. */
  lemma ShiftZero(v: Byte, p: bv3)
    requires p == 0
    ensures v << p == v && v >> p == v
  {}

  /** Writing a field at bit 0 needs no shift. */
  lemma PutLow(b: Byte, f: BitField, v: Byte)
    requires f.pos == 0
    ensures Put(b, f, v) == (b & !f.mask) | (v & f.mask)
  {
    ShiftZero(v, f.pos);
  }

  /** Reading a field at bit 0 needs no shift. */
  lemma GetLow(b: Byte, f: BitField)
    requires f.pos == 0
    ensures Get(b, f) == b & f.mask
  {
    ShiftZero(b & f.mask, f.pos);
  }

  /** Masking after a masked merge keeps the merged-in value when it fits the mask. */
  lemma MergeLow(b: Byte, m: Byte, v: Byte)
    requires v & m == v
    ensures ((b & !m) | (v & m)) & m == v
  {}

  /** A value that fits a field at bit 0 reads back unchanged after it is written. */
  lemma GetPutLow(b: Byte, f: BitField, v: Byte)
    requires f.pos == 0 && v & f.mask == v
    ensures Get(Put(b, f, v), f) == v
  {
    var r := Put(b, f, v);
    PutLow(b, f, v);
    GetLow(r, f);
    MergeLow(b, f.mask, v);
  }

  /**
   * A field outside the bits `m` an update may change reads the same after
   * the update as before.
   */
  lemma GetFramed(b: Byte, r: Byte, m: Byte, g: BitField)
    requires r & !m == b & !m && m & g.mask == 0
    ensures Get(r, g) == Get(b, g)
  {
    assert r & g.mask == b & g.mask;
  }

  /** A field whose mask has no bit below its position. */
  predicate Aligned(f: BitField)
  {
    (f.mask >> f.pos) << f.pos == f.mask
  }

  /** Writing back the value a field already holds changes nothing. */
  lemma PutGet(b: Byte, f: BitField)
    requires Aligned(f)
    ensures Put(b, f, Get(b, f)) == b
  {}

  /** A byte's value converted back to a byte is that byte. */
  lemma U8Byte(g: Byte)
    ensures U8(g as int) == g
  {
    assert (g as int) % 256 == g as int;
  }

  /** Assigning a field the value it already holds changes nothing. */
  lemma StoreSame(b: Byte, f: BitField, x: int)
    requires Aligned(f) && Get(b, f) as int == x
    ensures Store(b, f, x) == b
  {
    U8Byte(Get(b, f));
    PutGet(b, f);
  }

  /** Bit `i` of a byte. */
  predicate Bit(x: Byte, i: nat)
    requires i < 8
  {
    (x >> i) & 1 == 1
  }
}
