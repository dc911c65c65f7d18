/**
 * The INA219 current/voltage/power sensor driver: a register-level device
 * handle that programs the calibration and configuration registers and
 * decodes the four measurement registers.
 */
module Sensor {
  import opened Optional
  import opened Bits
  import opened Wire
  import opened Decode

  /** Register addresses of the INA219. */
  const ConfigReg: int := 0x00
  const ShuntVoltageReg: int := 0x01
  const BusVoltageReg: int := 0x02
  const PowerReg: int := 0x03
  const CurrentReg: int := 0x04
  const CalibrationReg: int := 0x05

  const DefaultAddress: int := 0x41
  const DefaultShuntOhms: real := 0.1
  /** Milliamperes per bit of the current register. */
  const DefaultCurrentLsb: real := 0.1
  /** Watts per bit of the power register. */
  const DefaultPowerLsb: real := 0.002

  /** The calibration constant of the device's current formula. */
  const CalibrationScale: real := 0.04096

  /** Configuration: 32 V bus range (0x2000), 320 mV shunt gain (0x1800), continuous shunt and bus conversion (0x07). */
  const ConfigWord: int := BitOr(BitOr(0x2000, 0x1800), 0x07)

  /** `int(x)` on a float: truncation toward zero. */
  function TruncateToInt(x: real): (n: int)
    ensures x >= 0.0 ==> 0 <= n && n as real <= x < n as real + 1.0
    ensures x < 0.0 ==> n <= 0 && n as real - 1.0 < x <= n as real
  {
    if x >= 0.0 then x.Floor else -((-x).Floor)
  }

  /**
   * The calibration word `int(0.04096 / (current_lsb * shunt_resistance))`.
   * For positive inputs it is the largest count whose product with the LSB
   * and the shunt stays within the calibration constant.
   */
  function CalibrationValue(currentLsb: real, shunt: real): (cal: int)
    requires currentLsb * shunt != 0.0
    ensures currentLsb * shunt > 0.0 ==>
      0 <= cal && cal as real * (currentLsb * shunt) <= CalibrationScale < (cal + 1) as real * (currentLsb * shunt)
    ensures currentLsb * shunt < 0.0 ==>
      cal <= 0 && cal as real * (currentLsb * shunt) <= CalibrationScale < (cal - 1) as real * (currentLsb * shunt)
  {
    var d := currentLsb * shunt;
    var q := CalibrationScale / d;
    assert q * d == CalibrationScale;
    var n := TruncateToInt(q);
    assert d > 0.0 ==> n as real * d <= q * d && q * d < (n + 1) as real * d;
    assert d < 0.0 ==> n as real * d <= CalibrationScale < (n - 1) as real * d by {
      if d < 0.0 {
        TruncatedBelowZero(d, q, n);
      }
    }
    n
  }

  /** A negative divisor: the truncated quotient `n` is the smallest count whose product stays within the constant. */
  lemma TruncatedBelowZero(d: real, q: real, n: int)
    requires d < 0.0 && q * d == CalibrationScale
    requires n as real - 1.0 < q <= n as real
    ensures n as real * d <= CalibrationScale < (n - 1) as real * d
  {
    MulFlipsOrder(q, n as real, d);
    MulFlipsOrder((n - 1) as real, q, d);
  }

  /** Multiplying by a negative number reverses an order. */
  lemma MulFlipsOrder(a: real, b: real, d: real)
    requires a <= b && d < 0.0
    ensures a * d >= b * d
    ensures a < b ==> a * d > b * d
  {
    assert a * d - b * d == (b - a) * (-d);
  }

  /** The register file after a complete calibration: calibration word, then configuration word. */
  function Calibrated(regs: RegisterFile, cal: int): (r: RegisterFile)
    ensures r.Keys == regs.Keys
    ensures CalibrationReg in regs ==> r[CalibrationReg] == WordBytes(cal)
    ensures ConfigReg in regs ==> r[ConfigReg] == WordBytes(ConfigWord)
    ensures forall a :: a in regs && a != CalibrationReg && a != ConfigReg ==> r[a] == regs[a]
  {
    WriteRegister(WriteRegister(regs, CalibrationReg, cal), ConfigReg, ConfigWord)
  }

  lemma ConfigWordValue()
    ensures ConfigWord == 0x3807 && 0 <= ConfigWord < 65536
  {
    assert Pow2(3) == 8 && Pow2(13) == 8192;
    OrBelowShift(1, 0x1800, 13);
    assert BitOr(0x2000, 0x1800) == 0x3800;
    OrBelowShift(0x700, 0x07, 3);
    assert BitOr(0x3800, 0x07) == 0x3807;
  }

  /** The configuration word's fields: bus range bit, shunt gain bits and mode bits. */
  lemma ConfigWordFields()
    ensures ShiftRight(ConfigWord, 13) % 2 == 1
    ensures ShiftRight(ConfigWord, 11) % 4 == 3
    ensures BitAnd(ConfigWord, 0x07) == 7
  {
    ConfigWordValue();
    ConfigWordShifts();
    ConfigWordMode();
  }

  /** The configuration word shifted down to its range bit and to its gain bits. */
  lemma ConfigWordShifts()
    ensures ShiftRight(0x3807, 13) == 1 && ShiftRight(0x3807, 11) == 7
  {
    assert Pow2(11) == 2048 && Pow2(13) == 8192;
    ShiftAndMask(0x3807, 13);
    ShiftAndMask(0x3807, 11);
  }

  /** The configuration word's low three bits, the operating mode. */
  lemma ConfigWordMode()
    ensures BitAnd(0x3807, 0x07) == 7
  {
    assert Pow2(3) == 8;
    ShiftAndMask(0x3807, 3);
  }

  /** With the default current LSB and shunt the calibration word is 4. */
  lemma DefaultCalibration()
    ensures CalibrationValue(DefaultCurrentLsb, DefaultShuntOhms) == 4
  {
  }

  /** A completed calibration reads back as the calibration word and 0x3807, other registers untouched. */
  lemma CalibratedReadBack(regs: RegisterFile, cal: int, other: int)
    requires CalibrationReg in regs && ConfigReg in regs
    requires other != CalibrationReg && other != ConfigReg
    ensures ReadRegister(Calibrated(regs, cal), CalibrationReg) == Some(cal % 65536)
    ensures ReadRegister(Calibrated(regs, cal), ConfigReg) == Some(0x3807)
    ensures ReadRegister(Calibrated(regs, cal), other) == ReadRegister(regs, other)
  {
    var once := WriteRegister(regs, CalibrationReg, cal);
    WriteThenRead(regs, CalibrationReg, cal);
    WriteThenRead(once, ConfigReg, ConfigWord);
    ConfigWordValue();
  }

  /** Calibrating a second time with the same word leaves the registers as the first time did. */
  lemma CalibrationIdempotent(regs: RegisterFile, cal: int)
    ensures Calibrated(Calibrated(regs, cal), cal) == Calibrated(regs, cal)
  {
  }

  class INA219 {
    const addr: int
    const shuntResistance: real
    const currentLsb: real
    const powerLsb: real
    var calValue: int
    var config: int
    /** The device's registers as the bus sees them. */
    var regs: RegisterFile

    /** The scale factors the driver fixes, and a shunt the calibration can divide by. */
    ghost predicate Valid()
    {
      currentLsb == DefaultCurrentLsb && powerLsb == DefaultPowerLsb && shuntResistance != 0.0
    }

    /** Field set-up, before the calibration step; `device` is the register file at that moment. */
    constructor (addr: int, shuntResistance: real, device: RegisterFile)
      ensures this.addr == addr && this.shuntResistance == shuntResistance
      ensures currentLsb == DefaultCurrentLsb && powerLsb == DefaultPowerLsb
      ensures regs == device && calValue == 0 && config == 0
    {
      this.addr := addr;
      this.shuntResistance := shuntResistance;
      currentLsb := DefaultCurrentLsb;
      powerLsb := DefaultPowerLsb;
      regs := device;
      calValue, config := 0, 0;
    }

    /** `write`: `[data >> 8, data & 0xFF]` goes to register `address`; `false` when the device does not answer. */
    method Write(address: int, data: int) returns (ok: bool)
      modifies this`regs
      ensures ok == (address in old(regs))
      ensures regs == WriteRegister(old(regs), address, data)
    {
      var (hi, lo) := Split(data);
      ok := address in regs;
      if ok {
        regs := regs[address := BytePair(BusByte(hi), BusByte(lo))];
      }
    }

    /** `read`: the two bytes of register `address` reassembled; `None` when the device does not answer. */
    method Read(address: int) returns (r: Option<int>)
      ensures r.Some? <==> address in regs
      ensures r.Some? ==> 0 <= r.value < 65536 && r.value == regs[address].hi * 256 + regs[address].lo
      ensures r == ReadRegister(regs, address)
    {
      if address !in regs {
        return None;
      }
      var data := regs[address];
      OrBelowShift(data.hi, data.lo, 8);
      r := Some(BitOr(ShiftLeft(data.hi, 8), data.lo));
    }

    /**
     * `set_calibration_32V_2A`. The calibration word is stored first, then
     * written; the configuration word is stored, then written. A write that
     * fails ends the step where it stands.
     */
    method SetCalibration() returns (ok: bool)
      requires Valid()
      modifies this`calValue, this`config, this`regs
      ensures calValue == CalibrationValue(currentLsb, shuntResistance)
      ensures ok == (CalibrationReg in old(regs) && ConfigReg in old(regs))
      ensures config == if CalibrationReg in old(regs) then ConfigWord else old(config)
      ensures regs == if CalibrationReg in old(regs) then Calibrated(old(regs), calValue) else old(regs)
    {
      calValue := CalibrationValue(currentLsb, shuntResistance);
      ok := Write(CalibrationReg, calValue);
      if !ok {
        return;
      }
      config := ConfigWord;
      ok := Write(ConfigReg, config);
    }

    /** `getShuntVoltage_mV` */
    method GetShuntVoltageMillivolts() returns (r: Option<real>)
      ensures r.Some? <==> ShuntVoltageReg in regs
      ensures r.Some? ==> r.value == ShuntMillivolts(Join(regs[ShuntVoltageReg]))
      ensures r.Some? ==> -327.68 <= r.value <= 327.67
    {
      var value := Read(ShuntVoltageReg);
      if value.None? {
        return None;
      }
      r := Some(ShuntMillivolts(value.value));
    }

    /** `getBusVoltage_V` */
    method GetBusVoltageVolts() returns (r: Option<real>)
      ensures r.Some? <==> BusVoltageReg in regs
      ensures r.Some? ==> r.value == BusVolts(Join(regs[BusVoltageReg]))
      ensures r.Some? ==> 0.0 <= r.value <= 32.764
    {
      var value := Read(BusVoltageReg);
      if value.None? {
        return None;
      }
      r := Some(BusVolts(value.value));
    }

    /** `getCurrent_mA` */
    method GetCurrentMilliamps() returns (r: Option<real>)
      ensures r.Some? <==> CurrentReg in regs
      ensures r.Some? ==> r.value == Scaled(Join(regs[CurrentReg]), currentLsb)
      ensures r.Some? && Valid() ==> -3276.8 <= r.value <= 3276.7
    {
      var value := Read(CurrentReg);
      if value.None? {
        return None;
      }
      if currentLsb >= 0.0 {
        ScaledRange(value.value, currentLsb);
      }
      r := Some(Scaled(value.value, currentLsb));
    }

    /** `getPower_W` */
    method GetPowerWatts() returns (r: Option<real>)
      ensures r.Some? <==> PowerReg in regs
      ensures r.Some? ==> r.value == Scaled(Join(regs[PowerReg]), powerLsb)
      ensures r.Some? && Valid() ==> -65.536 <= r.value <= 65.534
    {
      var value := Read(PowerReg);
      if value.None? {
        return None;
      }
      if powerLsb >= 0.0 {
        ScaledRange(value.value, powerLsb);
      }
      r := Some(Scaled(value.value, powerLsb));
    }
  }

  /**
   * Constructing the driver: field set-up followed by calibration. `None` when
   * the calibration divides by zero (a zero shunt) or a register write fails.
   */
  method Create(addr: int, shuntResistance: real, device: RegisterFile) returns (sensor: Option<INA219>)
    ensures sensor.Some? <==> shuntResistance != 0.0 && CalibrationReg in device && ConfigReg in device
    ensures sensor.Some? ==> fresh(sensor.value) && sensor.value.Valid()
    ensures sensor.Some? ==> sensor.value.addr == addr && sensor.value.shuntResistance == shuntResistance
    ensures sensor.Some? ==> sensor.value.calValue == CalibrationValue(DefaultCurrentLsb, shuntResistance)
    ensures sensor.Some? ==> sensor.value.config == ConfigWord
    ensures sensor.Some? ==> sensor.value.regs == Calibrated(device, sensor.value.calValue)
  {
    if shuntResistance == 0.0 {
      return None;
    }
    var s := new INA219(addr, shuntResistance, device);
    var ok := s.SetCalibration();
    if !ok {
      return None;
    }
    return Some(s);
  }

  /**
   * `INA219()` with every default argument: address 0x41 and a 0.1 ohm shunt.
   * On success the device holds calibration word 4 and the configuration word.
   */
  method CreateDefault(device: RegisterFile) returns (sensor: Option<INA219>)
    ensures sensor.Some? <==> CalibrationReg in device && ConfigReg in device
    ensures sensor.Some? ==> fresh(sensor.value) && sensor.value.Valid()
    ensures sensor.Some? ==> sensor.value.addr == DefaultAddress && sensor.value.shuntResistance == DefaultShuntOhms
    ensures sensor.Some? ==> sensor.value.calValue == 4 && sensor.value.config == ConfigWord
    ensures sensor.Some? ==> sensor.value.regs == Calibrated(device, 4)
  {
    DefaultCalibration();
    sensor := Create(DefaultAddress, DefaultShuntOhms, device);
  }

}
