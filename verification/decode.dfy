/**
 * Decoding of the INA219 measurement registers. Shunt voltage, current and power
 * are signed 16-bit two's-complement words; the bus-voltage word carries the
 * reading in its upper 13 bits and three status flags below them. Scale factors
 * are exact reals: the model does not round as floating point does.
 */
module Decode {
  import opened Bits

  /** Millivolts per bit of the shunt-voltage register. */
  const ShuntLsbMillivolts: real := 0.01
  /** Volts per count of the bus-voltage reading. */
  const BusLsbVolts: real := 0.004

  /** Two's-complement reinterpretation: `(value - 65536) if value > 32767 else value`. */
  function ToSigned16(value: int): (s: int)
    ensures 0 <= value < 65536 ==> -32768 <= s <= 32767
    ensures (value - s) % 65536 == 0
    ensures value <= 32767 ==> s == value
  {
    if value > 32767 then value - 65536 else value
  }

  /** The word that encodes a signed reading: the inverse of ToSigned16. */
  function FromSigned16(s: int): (w: int)
    ensures 0 <= w < 65536
  {
    s % 65536
  }

  lemma SignedRoundTrip(s: int)
    requires -32768 <= s <= 32767
    ensures ToSigned16(FromSigned16(s)) == s
  {
  }

  lemma WordRoundTripSigned(w: int)
    requires 0 <= w < 65536
    ensures FromSigned16(ToSigned16(w)) == w
  {
  }

  /** Distinct words decode to distinct signed readings. */
  lemma ToSigned16Injective(a: int, b: int)
    requires 0 <= a < 65536 && 0 <= b < 65536
    requires ToSigned16(a) == ToSigned16(b)
    ensures a == b
  {
  }

  /** The sign bit decides the sign: a word decodes negative exactly when it exceeds 32767. */
  lemma ToSigned16Sign(w: int)
    requires 0 <= w < 65536
    ensures ToSigned16(w) < 0 <==> w > 32767
    ensures w > 32767 ==> ToSigned16(w) == w - 65536
  {
  }

  lemma ToSigned16Examples()
    ensures ToSigned16(0) == 0 && ToSigned16(32767) == 32767
    ensures ToSigned16(32768) == -32768 && ToSigned16(65535) == -1
  {
  }

  /** `value >> 3`: the bus-voltage count with the three flag bits shifted out. */
  function BusCount(value: int): (n: int)
    ensures 8 * n <= value < 8 * n + 8
    ensures 0 <= value < 65536 ==> 0 <= n <= 8191
  {
    assert Pow2(3) == 8;
    ShiftAndMask(value, 3);
    ShiftRight(value, 3)
  }

  function ShuntMillivolts(value: int): (mv: real)
    ensures 0 <= value < 65536 ==> -327.68 <= mv <= 327.67
  {
    ToSigned16(value) as real * ShuntLsbMillivolts
  }

  function BusVolts(value: int): (v: real)
    ensures 0 <= value < 65536 ==> 0.0 <= v <= 32.764
  {
    BusCount(value) as real * BusLsbVolts
  }

  /** A signed register word times a per-bit scale: current and power. */
  function Scaled(value: int, lsb: real): (x: real)
    ensures lsb > 0.0 && 0 <= value < 65536 ==> (x < 0.0 <==> value > 32767)
  {
    ToSigned16(value) as real * lsb
  }

  /** The flags in the low three bits never change the bus count. */
  lemma BusCountIgnoresFlags(count: int, flags: int)
    requires 0 <= flags < 8
    ensures BusCount(8 * count + flags) == count
  {
  }

  /** Two words that differ only in their low three bits give the same bus voltage. */
  lemma BusVoltsIgnoresFlags(a: int, b: int)
    requires a - a % 8 == b - b % 8
    ensures BusVolts(a) == BusVolts(b)
  {
    var q := a / 8;
    BusCountIgnoresFlags(q, a % 8);
    BusCountIgnoresFlags(q, b % 8);
  }

  /** The bus voltage grows with the word. */
  lemma BusVoltsMonotone(a: int, b: int)
    requires a <= b
    ensures BusVolts(a) <= BusVolts(b)
  {
  }

  lemma BusVoltsExample()
    ensures BusCount(0x1F40) == 1000 && BusVolts(0x1F40) == 4.0
  {
    var n := BusCount(0x1F40);
    assert 8 * n <= 8000 < 8 * n + 8;
  }

  /** A product of two non-negative reals is non-negative. */
  lemma MulNonNegative(a: real, b: real)
    requires a >= 0.0 && b >= 0.0
    ensures a * b >= 0.0
  {
  }

  /** Scaled readings range from -32768 to 32767 bits' worth of the scale. */
  lemma ScaledRange(value: int, lsb: real)
    requires 0 <= value < 65536 && lsb >= 0.0
    ensures -32768.0 * lsb <= Scaled(value, lsb) <= 32767.0 * lsb
  {
    var s := ToSigned16(value) as real;
    MulNonNegative(s + 32768.0, lsb);
    MulNonNegative(32767.0 - s, lsb);
    assert s * lsb - (-32768.0) * lsb == (s + 32768.0) * lsb;
    assert 32767.0 * lsb - s * lsb == (32767.0 - s) * lsb;
  }

}
