/**
 Unsigned 64-bit integers as eight signed characters, in either byte order.
 Widths, truncations and sign extensions are written out on the integers.
 */
module Codec {

  newtype SChar = x: int | -128 <= x < 128

  type UInt64 = x: int | 0 <= x < 0x1_0000_0000_0000_0000

  datatype Endian = Little | Big

  /** The value of a character read as an unsigned byte. */
  function Align(c: SChar): (r: int)
    ensures 0 <= r < 256
  {
    if c < 0 then c as int + 256 else c as int
  }

  /** The low byte of x as a character: everything above it is dropped, then the sign is set. */
  function Trunc(x: UInt64): SChar {
    var b := x % 256;
    if b < 128 then b as SChar else (b - 256) as SChar
  }

  lemma AlignTrunc(x: UInt64, c: SChar)
    ensures Align(Trunc(x)) == x % 256
    ensures Trunc(Align(c)) == c
  {
  }

  function BitOr(x: int, y: int): (r: int)
    requires 0 <= x && 0 <= y
    ensures r >= 0
  {
    if x == 0 then y
    else if y == 0 then x
    else (if x % 2 == 1 || y % 2 == 1 then 1 else 0) + 2 * BitOr(x / 2, y / 2)
  }

  function Pow2(k: nat): (r: int)
    ensures r > 0
  {
    if k == 0 then 1 else 2 * Pow2(k - 1)
  }

  /** Or-ing numbers without a common bit adds them. */
  lemma {:induction false} OrAdds(x: int, y: int, k: nat)
    requires 0 <= x < Pow2(k) && 0 <= y
    ensures BitOr(x, y * Pow2(k)) == x + y * Pow2(k)
  {
    if x != 0 && y != 0 {
      var p := Pow2(k - 1);
      assert y * Pow2(k) == 2 * (y * p);
      OrAdds(x / 2, y, k - 1);
    }
  }

  // Shifting by k bits is written as multiplying or dividing by the k-th power of two.

  type Buffer = d: seq<SChar> | |d| == 8 witness [0, 0, 0, 0, 0, 0, 0, 0]

  function Put(e: Endian, x: UInt64): (d: Buffer) {
    var b := [Trunc(x), Trunc(x / 0x100), Trunc(x / 0x1_0000), Trunc(x / 0x100_0000),
              Trunc(x / 0x1_0000_0000), Trunc(x / 0x100_0000_0000), Trunc(x / 0x1_0000_0000_0000),
              Trunc(x / 0x100_0000_0000_0000)];
    if e == Little then b else [b[7], b[6], b[5], b[4], b[3], b[2], b[1], b[0]]
  }

  function Or64(x: int, y: int): UInt64
    requires 0 <= x && 0 <= y
  {
    BitOr(x, y) % 0x1_0000_0000_0000_0000
  }

  function Extract(e: Endian, d: Buffer): (x: UInt64) {
    var b := if e == Little then d else Reversed(d);
    Or64(Or64(Or64(Or64(Or64(Or64(Or64(
      Align(b[0]),
      Align(b[1]) * 0x100),
      Align(b[2]) * 0x1_0000),
      Align(b[3]) * 0x100_0000),
      Align(b[4]) * 0x1_0000_0000),
      Align(b[5]) * 0x100_0000_0000),
      Align(b[6]) * 0x1_0000_0000_0000),
      Align(b[7]) * 0x100_0000_0000_0000)
  }

  function Reversed(d: Buffer): (r: Buffer) {
    [d[7], d[6], d[5], d[4], d[3], d[2], d[1], d[0]]
  }

  /** The number whose base-256 digits, least significant first, are the unsigned characters of d. */
  function Weighted(d: seq<SChar>): int {
    if d == [] then 0 else Align(d[0]) + 256 * Weighted(d[1..])
  }

  lemma Powers()
    ensures Pow2(0) == 1 && Pow2(8) == 0x100 && Pow2(16) == 0x1_0000 && Pow2(24) == 0x100_0000
    ensures Pow2(32) == 0x1_0000_0000 && Pow2(40) == 0x100_0000_0000
    ensures Pow2(48) == 0x1_0000_0000_0000 && Pow2(56) == 0x100_0000_0000_0000
  {
  }

  lemma MulLe(a: int, b: int, p: int)
    requires 0 <= a <= b && 0 <= p
    ensures 0 <= a * p <= b * p
  {
  }

  /** Or-ing in the next byte of a little-endian number adds it at its weight. */
  lemma OrByte(x: int, a: int, k: nat, p: int)
    requires p == Pow2(k) && 0 <= a < 256 && 0 <= x < p && 256 * p <= 0x1_0000_0000_0000_0000
    ensures 0 <= a * p && x + a * p < 256 * p
    ensures Or64(x, a * p) == x + a * p
  {
    OrFits(x, a, p);
    OrAdds(x, a, k);
    OrNoOverflow(x, a * p);
  }

  lemma OrNoOverflow(x: int, y: int)
    requires 0 <= x && 0 <= y && x + y < 0x1_0000_0000_0000_0000 && BitOr(x, y) == x + y
    ensures y % 0x1_0000_0000_0000_0000 == y && Or64(x, y) == x + y
  {
  }

  lemma OrFits(x: int, a: int, p: int)
    requires 0 <= a < 256 && 0 <= x < p
    ensures 0 <= a * p && x + a * p < 256 * p
  {
    MulLe(a, 255, p);
  }

  lemma WeightedUnfolds(d: Buffer)
    ensures Weighted(d) ==
            Align(d[0]) + Align(d[1]) * 0x100 + Align(d[2]) * 0x1_0000 + Align(d[3]) * 0x100_0000 +
            Align(d[4]) * 0x1_0000_0000 + Align(d[5]) * 0x100_0000_0000 +
            Align(d[6]) * 0x1_0000_0000_0000 + Align(d[7]) * 0x100_0000_0000_0000
  {
    assert d[1..][1..] == d[2..] && d[2..][1..] == d[3..] && d[3..][1..] == d[4..] && d[4..][1..] == d[5..];
    assert d[5..][1..] == d[6..] && d[6..][1..] == d[7..];
    assert Weighted(d[7..]) == Align(d[7]);
    assert Weighted(d[5..]) == Align(d[5]) + 256 * Weighted(d[6..]);
    assert Weighted(d[3..]) == Align(d[3]) + 256 * Weighted(d[4..]);
    assert Weighted(d[1..]) == Align(d[1]) + 256 * Weighted(d[2..]);
  }

  /** The eight shifted bytes or-ed together are the weighted sum of the bytes. */
  lemma ExtractIsWeighted(d: Buffer)
    ensures Extract(Little, d) == Weighted(d)
  {
    WeightedUnfolds(d);
    Powers();
    var o0 := Align(d[0]);
    OrByte(o0, Align(d[1]), 8, 0x100);
    var o1 := Or64(o0, Align(d[1]) * 0x100);
    OrByte(o1, Align(d[2]), 16, 0x1_0000);
    var o2 := Or64(o1, Align(d[2]) * 0x1_0000);
    OrByte(o2, Align(d[3]), 24, 0x100_0000);
    var o3 := Or64(o2, Align(d[3]) * 0x100_0000);
    OrByte(o3, Align(d[4]), 32, 0x1_0000_0000);
    var o4 := Or64(o3, Align(d[4]) * 0x1_0000_0000);
    OrByte(o4, Align(d[5]), 40, 0x100_0000_0000);
    var o5 := Or64(o4, Align(d[5]) * 0x100_0000_0000);
    OrByte(o5, Align(d[6]), 48, 0x1_0000_0000_0000);
    var o6 := Or64(o5, Align(d[6]) * 0x1_0000_0000_0000);
    OrByte(o6, Align(d[7]), 56, 0x100_0000_0000_0000);
  }

  /** The n low base-256 digits of x, least significant first, and what is left above them. */
  function Digits(x: UInt64, n: nat): (d: seq<SChar>)
    ensures |d| == n
  {
    if n == 0 then [] else [Trunc(x)] + Digits(x / 256, n - 1)
  }

  function Rest(x: UInt64, n: nat): UInt64 {
    if n == 0 then x else Rest(x / 256, n - 1)
  }

  /** The digits of a number weigh what the number weighs, and no other characters do. */
  lemma {:induction false} DigitsWeigh(x: UInt64, d: seq<SChar>)
    requires Rest(x, |d|) == 0
    ensures Weighted(d) == x <==> d == Digits(x, |d|)
  {
    if d != [] {
      AlignTrunc(x, d[0]);
      DigitsWeigh(x / 256, d[1..]);
    }
  }

  lemma RestOfEight(x: UInt64)
    ensures Rest(x, 8) == 0
  {
    var x1 := x / 256; var x2 := x1 / 256; var x3 := x2 / 256; var x4 := x3 / 256;
    var x5 := x4 / 256; var x6 := x5 / 256; var x7 := x6 / 256;
    assert x2 < 0x1_0000_0000_0000;
    assert x4 < 0x1_0000_0000;
    assert x6 < 0x1_0000;
    assert x7 < 0x100;
    assert Rest(x7, 1) == x7 / 256 == 0;
    assert Rest(x6, 2) == Rest(x7, 1);
    assert Rest(x4, 4) == Rest(x6, 2);
    assert Rest(x2, 6) == Rest(x4, 4);
  }

  /** Dropping k + 1 bytes is dropping k bytes and then one more. */
  lemma Quotients(x: UInt64)
    ensures x / 0x1_0000 == x / 256 / 256 && x / 0x100_0000 == x / 0x1_0000 / 256
    ensures x / 0x1_0000_0000 == x / 0x100_0000 / 256 && x / 0x100_0000_0000 == x / 0x1_0000_0000 / 256
    ensures x / 0x1_0000_0000_0000 == x / 0x100_0000_0000 / 256
    ensures x / 0x100_0000_0000_0000 == x / 0x1_0000_0000_0000 / 256
  {
  }

  lemma PutIsDigits(x: UInt64)
    ensures Put(Little, x) == Digits(x, 8)
  {
    Quotients(x);
    var x1 := x / 256; var x2 := x1 / 256; var x3 := x2 / 256; var x4 := x3 / 256;
    var x5 := x4 / 256; var x6 := x5 / 256; var x7 := x6 / 256;
    assert Digits(x6, 2) == [Trunc(x6), Trunc(x7)];
    assert Digits(x4, 4) == [Trunc(x4), Trunc(x5)] + Digits(x6, 2);
    assert Digits(x2, 6) == [Trunc(x2), Trunc(x3)] + Digits(x4, 4);
    assert Digits(x, 8) == [Trunc(x), Trunc(x1)] + Digits(x2, 6);
  }

  lemma LittleRoundTrip(x: UInt64, d: Buffer)
    ensures Extract(Little, d) == x <==> d == Put(Little, x)
  {
    ExtractIsWeighted(d);
    PutIsDigits(x);
    RestOfEight(x);
    DigitsWeigh(x, d);
  }

  lemma BigIsReversedLittle(x: UInt64, d: Buffer)
    ensures Put(Big, x) == Reversed(Put(Little, x))
    ensures Extract(Big, d) == Extract(Little, Reversed(d))
  {
  }

  /** Extracting inverts putting, in both byte orders, for every 64-bit value. */
  lemma ExtractPut(e: Endian, x: UInt64)
    ensures Extract(e, Put(e, x)) == x
  {
    LittleRoundTrip(x, Put(Little, x));
    BigIsReversedLittle(x, Put(Big, x));
  }

  /** Putting inverts extracting, in both byte orders, for every eight signed characters. */
  lemma PutExtract(e: Endian, d: Buffer)
    ensures Put(e, Extract(e, d)) == d
  {
    var b := if e == Little then d else Reversed(d);
    LittleRoundTrip(Extract(Little, b), b);
    BigIsReversedLittle(Extract(Little, b), d);
  }

  /** Writes x into the eight characters of the buffer. */
  method PutUint64(e: Endian, data: array<SChar>, x: UInt64)
    requires data.Length == 8
    modifies data
    ensures data[..] == Put(e, x)
  {
    if e == Little {
      data[0] := Trunc(x);
      data[1] := Trunc(x / 0x100);
      data[2] := Trunc(x / 0x1_0000);
      data[3] := Trunc(x / 0x100_0000);
      data[4] := Trunc(x / 0x1_0000_0000);
      data[5] := Trunc(x / 0x100_0000_0000);
      data[6] := Trunc(x / 0x1_0000_0000_0000);
      data[7] := Trunc(x / 0x100_0000_0000_0000);
    } else {
      data[7] := Trunc(x);
      data[6] := Trunc(x / 0x100);
      data[5] := Trunc(x / 0x1_0000);
      data[4] := Trunc(x / 0x100_0000);
      data[3] := Trunc(x / 0x1_0000_0000);
      data[2] := Trunc(x / 0x100_0000_0000);
      data[1] := Trunc(x / 0x1_0000_0000_0000);
      data[0] := Trunc(x / 0x100_0000_0000_0000);
    }
  }
}
