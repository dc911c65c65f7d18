# INA219 sensor driver of SmartUPS, modelled in Dafny

SmartUPS polls an INA219 current/voltage/power sensor over I2C, turns its raw
register words into physical readings, and derives a battery percentage,
over-limit warnings and a remaining-run-time estimate. This project models the
driver class `INA219` of `SmartUPS.py` and proves its register-level and
numeric contracts.

- `optional.dfy` — `Option`, for a reading or estimate that is absent.
- `bits.dfy` (module `Bits`) — Python's `<<` and `>>` on unbounded
  integers, `&` of an unbounded integer with a non-negative mask, and `|` on
  non-negative integers. `>>`, `|` and `&` are defined
  one bit at a time. The module proves
  the facts the driver relies on: or-ing below a shift is addition, and a shift
  right by `k` together with the mask `2**k - 1` splits any integer into
  quotient and remainder.
- `wire.dfy` (module `Wire`) — register word transport. A write sends
  `[data >> 8, data & 0xFF]`; a read returns `(b0 << 8) | b1`. The device is a
  register file: a map from register address to the two bytes stored there.
  An address the device does not answer on is absent from the map; reading it
  gives `None` and writing it changes nothing.
- `decode.dfy` (module `Decode`) — two's-complement decoding and the scale
  factors of the shunt-voltage, bus-voltage, current and power registers.
- `battery.dfy` (module `Battery`) — `getPercent`, `check_thresholds` (three
  flags instead of printed warnings) and `estimate_remaining_time`.
- `sensor.dfy` (module `Sensor`) — the class `INA219`: the register file, the
  calibration and configuration state, `write`, `read`,
  `set_calibration_32V_2A` and the four getters. `Create` is the construction
  `INA219(...)`: field set-up followed by calibration. It gives `None` where the
  source raises an exception: a zero shunt resistance (division by zero) or a
  failed register write.

All scaling uses exact `real` arithmetic. Python floats round; the model does not.

Three behaviours of `SmartUPS.py` that a reader might not expect, all kept as written:
- `estimate_remaining_time` returns `None` unless `is_on_battery` holds and the
  draw is positive. Otherwise it returns `max(0, capacity / draw * 60)` minutes,
  with a capacity of 100 Wh and no upper bound: a 0.001 W draw gives 6,000,000 minutes
  (`Battery.RemainingTimeExamples`, `Battery.RemainingTimeUncapped`).
- The calibration divides 0.04096 by the current LSB 0.1 times the shunt
  0.1 Ω. With these defaults the calibration word is `int(4.096) = 4`
  (`Sensor.DefaultCalibration`).
- The calibration uses Python's `int()`, which truncates toward zero
  (`Sensor.TruncateToInt`). For a negative quotient this differs from rounding down.

## Model

| member | source | states |
|---|---|---|
| Bits.BitOr | SmartUPS.py:58 | `a \| b` on non-negative integers is at least each operand and at most their sum |
| Bits.BitAnd | SmartUPS.py:53 | `x & mask` never exceeds the mask, for negative `x` too |
| Bits.ShiftLeft | SmartUPS.py:58 | `x << n` loses nothing: shifting the result right by `n` gives `x` back |
| Bits.ShiftRight | SmartUPS.py:53 | `x >> n` keeps the sign of `x` and never grows its magnitude |
| Bits.OrBelowShift | SmartUPS.py:58 | or-ing `b < 2**k` into `a << k` equals `a * 2**k + b`, proved by induction over `k` |
| Bits.ShiftAndMask | SmartUPS.py:53 | for every integer `x`, `x == (x >> k) * 2**k + (x & (2**k - 1))` with the masked part below `2**k`, proved by induction over `k` |
| Wire.Split | SmartUPS.py:52-53 | the pair `[data >> 8, data & 0xFF]` has a low byte in 0..255 and reassembles to `data` as `hi * 256 + lo`; the high byte is in 0..255 exactly when `data` is in 0..65535 |
| Wire.BusByte | SmartUPS.py:54 | the byte the bus stores for a list element is congruent to it modulo 256, and is the element itself when it lies in 0..255 |
| Wire.WordBytes | SmartUPS.py:52-54 | a written word reaches the register as low byte `data mod 256` and high byte `(data div 256) mod 256` |
| Wire.WriteRegister | SmartUPS.py:52-54 | a write keeps the set of answering addresses; the addressed register, when it answers, holds the word's two bytes, and every other register is unchanged |
| Wire.Join | SmartUPS.py:56-58 | `(b0 << 8) \| b1` of two bytes is `b0 * 256 + b1` and lies in 0..65535 |
| Wire.ReadRegister | SmartUPS.py:56-58 | a read succeeds exactly when the device answers at the address, and returns a word in 0..65535 |
| Wire.SplitFitsBytes | SmartUPS.py:52-58 | a word in 0..65535 reaches the device as its own two bytes and reads back as itself |
| Wire.WordRoundTrip | SmartUPS.py:52-58 | any integer written reads back as itself modulo 2**16 |
| Wire.BytesRoundTrip | SmartUPS.py:52-58 | a byte pair read as a word and written again is the same byte pair: the encoding is one-to-one |
| Wire.WriteThenRead | SmartUPS.py:52-58 | write-then-read on one register returns the written word modulo 2**16 |
| Wire.WriteLeavesOthers | SmartUPS.py:52-54 | a write leaves every other register reading as before |
| Wire.WriteAbsentIsNoOp | SmartUPS.py:52-54 | a write to an address the device does not answer on changes nothing |
| Decode.ToSigned16 | SmartUPS.py:66-68 | a word in 0..65535 decodes into -32768..32767, congruent to the word modulo 2**16, and unchanged up to 32767 |
| Decode.SignedRoundTrip | SmartUPS.py:66-68 | every signed 16-bit value, encoded as a word and decoded, is itself |
| Decode.WordRoundTripSigned | SmartUPS.py:66-68 | every word in 0..65535, decoded and encoded again, is itself |
| Decode.ToSigned16Injective | SmartUPS.py:74-76 | distinct words in 0..65535 decode to distinct values |
| Decode.ToSigned16Sign | SmartUPS.py:78-80 | a word decodes negative exactly when it exceeds 32767, and then to the word minus 65536 |
| Decode.ToSigned16Examples | SmartUPS.py:68 | 0 → 0, 32767 → 32767, 32768 → -32768, 65535 → -1 |
| Decode.BusCount | SmartUPS.py:72 | `value >> 3` is the count `n` with `8n <= value < 8n + 8`, in 0..8191 for a 16-bit word |
| Decode.BusCountIgnoresFlags | SmartUPS.py:70-72 | the three flag bits below the count never change it |
| Decode.BusVoltsIgnoresFlags | SmartUPS.py:70-72 | two words that differ only in their low three bits give the same bus voltage |
| Decode.BusVoltsMonotone | SmartUPS.py:70-72 | a larger word never gives a lower bus voltage |
| Decode.BusVoltsExample | SmartUPS.py:70-72 | the word 0x1F40 gives count 1000 and 4.0 V |
| Decode.BusVolts | SmartUPS.py:70-72 | the bus voltage of a 16-bit word lies in 0..32.764 V |
| Decode.ShuntMillivolts | SmartUPS.py:66-68 | the shunt voltage of a 16-bit word lies in -327.68..327.67 mV |
| Decode.Scaled | SmartUPS.py:74-80 | with a positive scale, a current or power reading is negative exactly when the word exceeds 32767 |
| Decode.ScaledRange | SmartUPS.py:74-80 | a scaled reading lies between -32768 and 32767 times the scale |
| Battery.Percent | SmartUPS.py:82-84 | the percentage lies in 0..100, is 0 at or below 9 V and 100 at or above 12.6 V |
| Battery.PercentMonotone | SmartUPS.py:82-84 | a higher bus voltage never gives a lower percentage |
| Battery.PercentInverse | SmartUPS.py:82-84 | every percentage in 0..100 is reached at the voltage `9 + 3.6 p / 100` |
| Battery.PercentExamples | SmartUPS.py:82-84 | 12.6 V and 15 V give 100, 9 V and 6 V give 0, 10.8 V gives 50 |
| Battery.Max | SmartUPS.py:84 | Python's `max(a, b)` is one of its operands and at least both |
| Battery.Min | SmartUPS.py:84 | Python's `min(a, b)` is one of its operands and at most both |
| Battery.CheckThresholds | SmartUPS.py:86-96 | the voltage, current and power warnings fire exactly when their value exceeds 15.0, 2.0 and 10.0 |
| Battery.AlertsIndependent | SmartUPS.py:86-96 | each warning depends on its own reading only |
| Battery.EveryAlertCombination | SmartUPS.py:86-96 | every subset of the three warnings fires for some readings |
| Battery.AlertsExamples | SmartUPS.py:86-96 | 15.1 V alone warns on voltage, 2.5 A alone on current, values at the limits warn on nothing, all three over warn on all |
| Battery.EstimateRemainingTime | SmartUPS.py:133-137 | an estimate exists exactly when on battery with a positive draw; it is positive and times the draw gives 100 Wh × 60 |
| Battery.RemainingTimeDecreasing | SmartUPS.py:133-137 | a larger draw never leaves more time |
| Battery.RemainingTimeUncapped | SmartUPS.py:133-137 | for any limit some positive draw gives an estimate above it: there is no cap |
| Battery.RemainingTimeExamples | SmartUPS.py:133-137 | 10 W gives 600 min, 0.001 W gives 6,000,000 min, zero draw or mains power gives none |
| Sensor.TruncateToInt | SmartUPS.py:61 | `int(x)` is the integer next to `x` toward zero |
| Sensor.CalibrationValue | SmartUPS.py:61 | for a positive LSB and shunt the calibration word is non-negative and the largest count whose product with LSB × shunt stays within 0.04096; for a negative product it is at most 0 and the smallest count whose product stays within 0.04096 |
| Sensor.Calibrated | SmartUPS.py:60-64 | a completed calibration keeps the set of answering addresses; the calibration register holds the calibration word's bytes, the configuration register those of the configuration word, every other register is unchanged |
| Sensor.ConfigWordValue | SmartUPS.py:63 | `0x2000 \| 0x1800 \| 0x07` is 0x3807 and fits in 16 bits |
| Sensor.ConfigWordFields | SmartUPS.py:63 | the configuration word sets the 32 V range bit, gain bits 3 (320 mV) and mode bits 7 (continuous shunt and bus) |
| Sensor.DefaultCalibration | SmartUPS.py:47-61 | the default LSB 0.1 and shunt 0.1 give the calibration word 4 |
| Sensor.CalibratedReadBack | SmartUPS.py:60-64 | after a completed calibration the calibration register reads the calibration word modulo 2**16, the configuration register 0x3807, every other register as before |
| Sensor.CalibrationIdempotent | SmartUPS.py:60-64 | calibrating twice leaves the registers as calibrating once |
| Sensor.INA219.constructor | SmartUPS.py:44-49 | sets the address, the shunt, the current LSB 0.1 and the power LSB 0.002 |
| Sensor.INA219.Write | SmartUPS.py:52-54 | succeeds exactly when the device answers at the address; the register file becomes the one-register write of the word |
| Sensor.INA219.Read | SmartUPS.py:56-58 | succeeds exactly when the device answers at the address; returns the stored bytes as `hi * 256 + lo`, a word in 0..65535, the same value as the register-file read `Wire.ReadRegister` |
| Sensor.INA219.SetCalibration | SmartUPS.py:60-64 | stores the calibration word; writes it, then sets and writes 0x3807; succeeds exactly when both registers answer, and a failed write stops the step where it stands |
| Sensor.INA219.GetShuntVoltageMillivolts | SmartUPS.py:66-68 | present exactly when the register answers; the decoded register word, within -327.68..327.67 mV |
| Sensor.INA219.GetBusVoltageVolts | SmartUPS.py:70-72 | present exactly when the register answers; the decoded register word, within 0..32.764 V |
| Sensor.INA219.GetCurrentMilliamps | SmartUPS.py:74-76 | present exactly when the register answers; the signed word times the current LSB; for a sensor returned by `Create`, within -3276.8..3276.7 mA |
| Sensor.INA219.GetPowerWatts | SmartUPS.py:78-80 | present exactly when the register answers; the signed word times the power LSB; for a sensor returned by `Create`, within -65.536..65.534 W |
| Sensor.Create | SmartUPS.py:44-50 | construction succeeds exactly when the shunt is non-zero and both calibration registers answer; the object then holds the calibration word, 0x3807 and the calibrated register file |
| Sensor.CreateDefault | SmartUPS.py:44-50 | `INA219()` with its default address 0x41 and 0.1 Ω shunt succeeds exactly when both calibration registers answer, and then holds calibration word 4, the configuration word 0x3807 and the calibrated register file |

## Left out

- The `smbus2` bus object and its calls are replaced by the register file. An I/O fault is modelled only as "the device does not answer at this address": the read gives `None`, the write changes nothing. Bus number, timing and partial transfers are not modelled. The register file changes only through the driver's own writes. The chip's conversions, which update the shunt, bus, power and current registers (0x01-0x04), are not modelled. Neither is the chip ignoring writes to those read-only registers.
- Wire.BusByte: a list element outside 0..255 handed to the bus keeps only its low 8 bits. The source does not check the range. This is how an 8-bit transfer buffer stores it, and it is an assumption about the bus library. Words in 0..65535 are never affected.
- Python floats: every scale factor and division is exact `real` arithmetic. For example, Python's `0.04096 / (0.1 * 0.1)` rounds, while the model computes exactly 4.096. At the upper clamp edge, Python's `(12.6 - 9) / 3.6` rounds to `1 - 2**-53`, so `getPercent(12.6)` returns 99.99999999999999, not 100. The 12.6 V edge in `Battery.Percent` and `Battery.PercentExamples` holds for exact arithmetic only.
- Sensor.Create: when the configuration write fails after the calibration write succeeded, the source raises with the calibration word already stored on the chip. The model returns `None` and discards the register file, so that partial write is not visible to a caller of `Create`.
- Sensor.INA219.constructor: before calibration the source has no `_cal_value` or `config` attribute. The model starts both at 0, and `Create` never hands out an object in that state.
- Sensor.INA219.SetCalibration: requires a non-zero shunt. In the model `shunt_resistance`, `_current_lsb` and `_power_lsb` are `const` fields fixed at construction, and `Create` refuses a zero shunt. The source never reassigns them, but other Python code could, and a later zero shunt would raise in the source.
- `check_thresholds` prints its warnings; the model returns the three flags and leaves out the message text.
- `is_on_battery` is a parameter of `EstimateRemainingTime`. The main loop sets it from `bus_voltage < 12.0`, and that loop is not modelled.
- `get_system_metrics` (psutil host telemetry), `log_to_file` and the CSV header/row writing: host queries and file I/O.
- The `__main__` polling loop, `time.sleep`, console output and its formatting, exception handling, and the matplotlib plotting with its 50-sample buffers: orchestration and UI.
