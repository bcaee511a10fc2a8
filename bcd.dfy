/**
 * The two-digit binary-coded-decimal conversions every driver uses:
 * `BCD2BIN(v) = (v & 15) + (v >> 4) * 10` on a register field value, and
 * `BIN2BCD(v) = ((v / 10) << 4) + v % 10` on a C `int`.
 */
module Bcd {
  import opened Bits

  /** BCD2BIN on a bit-field value: low nibble plus ten times the high nibble. */
  function ToBin(v: Byte): (r: int)
    ensures 0 <= r <= 165
  {
    (v & 15) as int + ((v >> 4) as int) * 10
  }

  /**
   * BIN2BCD on a C `int`, with C's truncating `/` and `%`; the caller stores
   * the result into a bit field, which keeps only the bits that fit.
   */
  function FromBin(v: int): int
  {
    CDiv(v, 10) * 16 + CRem(v, 10)
  }

  /** Two decimal digits, one per nibble. */
  predicate IsBcd(v: Byte)
  {
    (v & 15) as int <= 9 && (v >> 4) as int <= 9
  }

  /** A byte's nibbles and width, read as numbers. */
  lemma ByteParts(v: Byte)
    ensures (v & 15) as int == v as int % 16 && (v >> 4) as int == v as int / 16
    ensures v as int < 128 ==> v & 0x7F == v
    ensures v as int < 64 ==> v & 0x3F == v
    ensures v as int < 32 ==> v & 0x1F == v
    ensures v as int < 8 ==> v & 0x07 == v
  {}

  /** Two bytes with the same value are the same byte. */
  lemma SameValue(a: Byte, b: Byte)
    requires a as int == b as int
    ensures a == b
  {}

  /** The code of 0..99 as a number: the tens digit times sixteen plus the units. */
  lemma CodeValue(x: int)
    requires 0 <= x <= 99
    ensures U8(FromBin(x)) as int == (x / 10) * 16 + x % 10
  {
    var n := (x / 10) * 16 + x % 10;
    assert FromBin(x) == n;
    assert 0 <= n < 256 && n % 256 == n;
  }

  /** Splitting sixteen times a digit plus a digit. */
  lemma Sixteens(hi: int, lo: int)
    requires 0 <= hi <= 9 && 0 <= lo <= 9
    ensures (hi * 16 + lo) % 16 == lo && (hi * 16 + lo) / 16 == hi
    ensures (hi * 10 + lo) % 10 == lo && (hi * 10 + lo) / 10 == hi
  {}

  /**
   * Every value 0..99 encodes to two valid BCD digits that decode back to it,
   * and the code fits a field just wide enough for the value's tens digit.
   */
  lemma RoundTrip(x: int)
    requires 0 <= x <= 99
    ensures IsBcd(U8(FromBin(x))) && ToBin(U8(FromBin(x))) == x
    ensures x < 80 ==> U8(FromBin(x)) & 0x7F == U8(FromBin(x))
    ensures x < 40 ==> U8(FromBin(x)) & 0x3F == U8(FromBin(x))
    ensures x < 20 ==> U8(FromBin(x)) & 0x1F == U8(FromBin(x))
    ensures x < 8 ==> U8(FromBin(x)) & 0x07 == U8(FromBin(x))
  {
    CodeDecodes(x);
    CodeWidth(x);
  }

  lemma CodeDecodes(x: int)
    requires 0 <= x <= 99
    ensures IsBcd(U8(FromBin(x))) && ToBin(U8(FromBin(x))) == x
  {
    var v := U8(FromBin(x));
    var hi, lo := x / 10, x % 10;
    CodeValue(x);
    assert v as int == hi * 16 + lo;
    Sixteens(hi, lo);
    ByteParts(v);
  }

  lemma CodeWidth(x: int)
    requires 0 <= x <= 99
    ensures x < 80 ==> U8(FromBin(x)) & 0x7F == U8(FromBin(x))
    ensures x < 40 ==> U8(FromBin(x)) & 0x3F == U8(FromBin(x))
    ensures x < 20 ==> U8(FromBin(x)) & 0x1F == U8(FromBin(x))
    ensures x < 8 ==> U8(FromBin(x)) & 0x07 == U8(FromBin(x))
  {
    var v := U8(FromBin(x));
    var hi, lo := x / 10, x % 10;
    CodeValue(x);
    assert v as int == hi * 16 + lo;
    ByteParts(v);
  }

  /** Every two-digit BCD code decodes to 0..99 and re-encodes to itself. */
  lemma DecodeEncode(v: Byte)
    requires IsBcd(v)
    ensures 0 <= ToBin(v) <= 99 && U8(FromBin(ToBin(v))) == v
  {
    var hi, lo := (v >> 4) as int, (v & 15) as int;
    Digits(v);
    EncodeDigits(hi, lo);
    SameValue(U8(FromBin(ToBin(v))), v);
  }

  /** A BCD byte's value and its decoding, in terms of its two digits. */
  lemma Digits(v: Byte)
    requires IsBcd(v)
    ensures v as int == ((v >> 4) as int) * 16 + (v & 15) as int
    ensures ToBin(v) == ((v >> 4) as int) * 10 + (v & 15) as int
  {
    ByteParts(v);
  }

  /** Encoding the number with digits `hi` and `lo` puts them in the two nibbles. */
  lemma EncodeDigits(hi: int, lo: int)
    requires 0 <= hi <= 9 && 0 <= lo <= 9
    ensures U8(FromBin(hi * 10 + lo)) as int == hi * 16 + lo
  {
    var x := hi * 10 + lo;
    Sixteens(hi, lo);
    assert x / 10 == hi && x % 10 == lo;
    CodeValue(x);
  }

  /** The field widths the drivers store BCD values in, each with the largest value it holds. */
  predicate Fits(f: BitField, x: int)
  {
    f.pos == 0 && 0 <= x &&
    ((f.mask == 0xFF && x <= 99) || (f.mask == 0x7F && x < 80) || (f.mask == 0x3F && x < 40) ||
     (f.mask == 0x1F && x < 20) || (f.mask == 0x07 && x < 8))
  }

  /** A value stored in BCD into a field wide enough for it reads back as that value. */
  lemma StoreRoundTrip(b: Byte, f: BitField, x: int)
    requires Fits(f, x)
    ensures Get(Store(b, f, FromBin(x)), f) == U8(FromBin(x))
    ensures ToBin(Get(Store(b, f, FromBin(x)), f)) == x
  {
    RoundTrip(x);
    GetPutLow(b, f, U8(FromBin(x)));
  }

  /** Element `i` of a register block holding a BCD value stored into field `f` reads back as that value. */
  lemma ReadsBack(b: seq<Byte>, i: int, s: Byte, f: BitField, x: int)
    requires 0 <= i < |b| && Fits(f, x) && b[i] == Store(s, f, FromBin(x))
    ensures ToBin(Get(b[i], f)) == x
  {
    StoreRoundTrip(s, f, x);
  }

  /** As ReadsBack, when a disjoint field `g` of the same register was set afterwards. */
  lemma ReadsBackUnder(b: seq<Byte>, i: int, s: Byte, f: BitField, x: int, g: BitField, c: Byte)
    requires 0 <= i < |b| && Fits(f, x) && g.mask & f.mask == 0
    requires b[i] == Put(Store(s, f, FromBin(x)), g, c)
    ensures ToBin(Get(b[i], f)) == x
  {
    GetFramed(Store(s, f, FromBin(x)), b[i], g.mask, f);
    StoreRoundTrip(s, f, x);
  }

  /** The BCD code of 0..99 read as a plain number: six more per ten. */
  lemma Code(x: int)
    requires 0 <= x <= 99
    ensures U8(FromBin(x)) as int == x + 6 * (x / 10)
  {
    CodeValue(x);
  }
}
