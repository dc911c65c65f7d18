/**
 * Register word transport of the INA219 driver: a 16-bit register word travels
 * over the two-wire bus as a big-endian pair of bytes, high byte first. The
 * device is seen as a register file, a map from register address to the two
 * bytes that register holds; an address the device does not answer on is
 * absent from the map.
 */
module Wire {
  import opened Optional
  import opened Bits

  type Byte = b: int | 0 <= b < 256

  /** The contents of one register, most significant byte first. */
  datatype BytePair = BytePair(hi: Byte, lo: Byte)

  type RegisterFile = map<int, BytePair>

  /** The list `[data >> 8, data & 0xFF]` that a register write hands to the bus. */
  function Split(data: int): (pair: (int, int))
    ensures 0 <= pair.1 < 256
    ensures pair.0 * 256 + pair.1 == data
    ensures 0 <= data < 65536 <==> 0 <= pair.0 < 256
  {
    assert Pow2(8) == 256 && Pow2(8) - 1 == 0xFF;
    ShiftAndMask(data, 8);
    (ShiftRight(data, 8), BitAnd(data, 0xFF))
  }

  /** The bus transfers 8-bit bytes: of each list element it keeps the low 8 bits. */
  function BusByte(x: int): (b: Byte)
    ensures 0 <= x < 256 ==> b == x
    ensures (x - b) % 256 == 0
  {
    x % 256
  }

  /** The bytes a register holds after `data` was written to it. */
  function WordBytes(data: int): (p: BytePair)
    ensures p.lo == data % 256
    ensures p.hi == (data / 256) % 256
  {
    var (hi, lo) := Split(data);
    RemainderUnique(data, 256, hi, lo);
    BytePair(BusByte(hi), BusByte(lo))
  }

  /** The word a register read returns: `(data[0] << 8) | data[1]`. */
  function Join(p: BytePair): (w: int)
    ensures w == p.hi * 256 + p.lo
    ensures 0 <= w < 65536
  {
    OrBelowShift(p.hi, p.lo, 8);
    BitOr(ShiftLeft(p.hi, 8), p.lo)
  }

  /** A register write: the addressed register takes the new bytes, the others keep theirs. */
  function WriteRegister(regs: RegisterFile, address: int, data: int): (r: RegisterFile)
    ensures r.Keys == regs.Keys
    ensures address in regs ==> r[address] == WordBytes(data)
    ensures forall a :: a in regs && a != address ==> r[a] == regs[a]
  {
    if address in regs then regs[address := WordBytes(data)] else regs
  }

  /** A register read; `None` when the device does not answer at `address`. */
  function ReadRegister(regs: RegisterFile, address: int): (r: Option<int>)
    ensures r.Some? <==> address in regs
    ensures r.Some? ==> 0 <= r.value < 65536
  {
    if address in regs then Some(Join(regs[address])) else None
  }

  /** A word in 0..65535 goes on the wire as two bytes, unchanged by the 8-bit transfer. */
  lemma SplitFitsBytes(data: int)
    requires 0 <= data < 65536
    ensures WordBytes(data).hi == Split(data).0 && WordBytes(data).lo == Split(data).1
    ensures Join(WordBytes(data)) == data
  {
  }

  /** Reading back any written integer gives it modulo 2**16. */
  lemma WordRoundTrip(data: int)
    ensures Join(WordBytes(data)) == data % 65536
  {
    var (hi, lo) := Split(data);
    var s := hi / 256;
    assert data == 65536 * s + (BusByte(hi) * 256 + lo);
    RemainderUnique(data, 65536, s, BusByte(hi) * 256 + lo);
  }

  /** Reading back is one-to-one: a byte pair survives being joined and split again. */
  lemma BytesRoundTrip(p: BytePair)
    ensures WordBytes(Join(p)) == p
  {
  }

  /** Write-then-read on the same register returns the word written, modulo 2**16. */
  lemma WriteThenRead(regs: RegisterFile, address: int, data: int)
    requires address in regs
    ensures ReadRegister(WriteRegister(regs, address, data), address) == Some(data % 65536)
  {
    WordRoundTrip(data);
  }

  /** A write to one register leaves every other register reading as before. */
  lemma WriteLeavesOthers(regs: RegisterFile, address: int, data: int, other: int)
    requires other != address
    ensures ReadRegister(WriteRegister(regs, address, data), other) == ReadRegister(regs, other)
  {
  }

  /** A write to an address the device does not answer on changes nothing. */
  lemma WriteAbsentIsNoOp(regs: RegisterFile, address: int, data: int)
    requires address !in regs
    ensures WriteRegister(regs, address, data) == regs
  {
  }

}
