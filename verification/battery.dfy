/**
 * The driver's derived estimates: a state-of-charge percentage from the bus
 * voltage, the over-limit alerts, and the remaining run time on battery.
 * All arithmetic is on exact reals.
 */
module Battery {
  import opened Optional

  /** Bus voltage read as an empty battery, and the span up to a full one (12.6 V). */
  const EmptyVolts: real := 9.0
  const SpanVolts: real := 3.6

  const MaxVoltage: real := 15.0
  const MaxCurrent: real := 2.0
  const MaxPower: real := 10.0

  const BatteryCapacityWh: real := 100.0

  /** Python's `max(a, b)`: the larger operand, the first one on a tie. */
  function Max(a: real, b: real): (r: real)
    ensures a <= r && b <= r && (r == a || r == b)
  {
    if b > a then b else a
  }

  /** Python's `min(a, b)`: the smaller operand, the first one on a tie. */
  function Min(a: real, b: real): (r: real)
    ensures r <= a && r <= b && (r == a || r == b)
  {
    if b < a then b else a
  }

  /** `getPercent`: a linear map of the bus voltage clamped to 0..100. */
  function Percent(busVoltage: real): (p: real)
    ensures 0.0 <= p <= 100.0
    ensures busVoltage <= EmptyVolts ==> p == 0.0
    ensures busVoltage >= EmptyVolts + SpanVolts ==> p == 100.0
  {
    Min(Max((busVoltage - EmptyVolts) / SpanVolts * 100.0, 0.0), 100.0)
  }

  /** A higher bus voltage never gives a lower percentage. */
  lemma PercentMonotone(a: real, b: real)
    requires a <= b
    ensures Percent(a) <= Percent(b)
  {
  }

  /** Every percentage is reached, at the voltage the linear map sends to it. */
  lemma PercentInverse(p: real)
    requires 0.0 <= p <= 100.0
    ensures Percent(EmptyVolts + SpanVolts * p / 100.0) == p
  {
  }

  lemma PercentExamples()
    ensures Percent(12.6) == 100.0 && Percent(9.0) == 0.0
    ensures Percent(6.0) == 0.0 && Percent(15.0) == 100.0
    ensures Percent(10.8) == 50.0
  {
  }

  /** The three warnings of `check_thresholds`, as flags instead of printed lines. */
  datatype Alerts = Alerts(voltage: bool, current: bool, power: bool)

  function CheckThresholds(busVoltage: real, current: real, power: real): (a: Alerts)
    ensures a.voltage <==> busVoltage > MaxVoltage
    ensures a.current <==> current > MaxCurrent
    ensures a.power <==> power > MaxPower
  {
    Alerts(busVoltage > MaxVoltage, current > MaxCurrent, power > MaxPower)
  }

  /** Each alert depends on its own reading only. */
  lemma AlertsIndependent(v: real, c: real, p: real, v': real, c': real, p': real)
    ensures CheckThresholds(v, c, p).voltage == CheckThresholds(v, c', p').voltage
    ensures CheckThresholds(v, c, p).current == CheckThresholds(v', c, p').current
    ensures CheckThresholds(v, c, p).power == CheckThresholds(v', c', p).power
  {
  }

  /** Any combination of alerts occurs, each limit exceeded by one unit or not at all. */
  lemma EveryAlertCombination(want: Alerts)
    ensures CheckThresholds(if want.voltage then MaxVoltage + 1.0 else MaxVoltage,
                            if want.current then MaxCurrent + 1.0 else MaxCurrent,
                            if want.power then MaxPower + 1.0 else MaxPower) == want
  {
  }

  lemma AlertsExamples()
    ensures CheckThresholds(15.1, 1.0, 5.0) == Alerts(true, false, false)
    ensures CheckThresholds(12.0, 2.5, 5.0) == Alerts(false, true, false)
    ensures CheckThresholds(15.0, 2.0, 10.0) == Alerts(false, false, false)
    ensures CheckThresholds(16.0, 3.0, 11.0) == Alerts(true, true, true)
  {
  }

  /**
   * `estimate_remaining_time`: minutes of run time left at the present power
   * draw, only while running on battery and drawing power; `None` otherwise.
   */
  function EstimateRemainingTime(isOnBattery: bool, powerDraw: real): (minutes: Option<real>)
    ensures minutes.Some? <==> isOnBattery && powerDraw > 0.0
    ensures minutes.Some? ==> minutes.value > 0.0
    ensures minutes.Some? ==> minutes.value * powerDraw == BatteryCapacityWh * 60.0
  {
    if isOnBattery && powerDraw > 0.0 then
      Some(Max(0.0, BatteryCapacityWh / powerDraw * 60.0))
    else
      None
  }

  /** A larger draw never leaves more time. */
  lemma RemainingTimeDecreasing(p: real, q: real)
    requires 0.0 < p <= q
    ensures EstimateRemainingTime(true, q).value <= EstimateRemainingTime(true, p).value
  {
    var a, b := EstimateRemainingTime(true, p).value, EstimateRemainingTime(true, q).value;
    assert a * p == b * q;
    assert b * q - b * p == b * (q - p);
    assert (a - b) * p >= 0.0;
  }

  /** The estimate has no upper bound: a small enough draw exceeds any limit. */
  lemma RemainingTimeUncapped(limit: real)
    requires limit > 0.0
    ensures var draw := BatteryCapacityWh * 60.0 / (limit + 1.0);
      draw > 0.0 && EstimateRemainingTime(true, draw) == Some(limit + 1.0)
  {
    var draw := BatteryCapacityWh * 60.0 / (limit + 1.0);
    assert draw * (limit + 1.0) == BatteryCapacityWh * 60.0;
    var m := EstimateRemainingTime(true, draw).value;
    assert m * draw == (limit + 1.0) * draw;
  }

  lemma RemainingTimeExamples()
    ensures EstimateRemainingTime(true, 10.0) == Some(600.0)
    ensures EstimateRemainingTime(true, 0.001) == Some(6000000.0)
    ensures EstimateRemainingTime(true, 0.0) == None
    ensures EstimateRemainingTime(false, 10.0) == None
  {
  }

}
