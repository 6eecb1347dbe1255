/** The professional MQ-136 sketch (src/main_pro.cpp): the same reading as
    the basic sketch, but against an R0 corrected for ambient temperature and
    humidity whenever the DHT11 delivers both values. */
module Mq136Pro {
  import opened Wrappers
  import opened Adc
  import opened Mq136
  import Mq136Basic

  /** The climate at which R0 was calibrated, and the correction slopes. */
  const T_REF: real := 20.0
  const H_REF: real := 65.0
  const TEMP_COEFF: real := 0.02
  const HUMIDITY_COEFF: real := 0.01

  /** `r0_compensated`: corrected only when both temperature and humidity
      are present (neither is NaN); otherwise the calibrated 18 kOhm. */
  function CompensatedR0(temperature: Option<real>, humidity: Option<real>): (r0: real)
    ensures temperature.None? || humidity.None? ==> r0 == R0_CALIBRATION_OHMS
  {
    if temperature.Some? && humidity.Some? then
      R0_CALIBRATION_OHMS * (1.0 - TEMP_COEFF * (temperature.value - T_REF)
                                 - HUMIDITY_COEFF * (humidity.value - H_REF))
    else
      R0_CALIBRATION_OHMS
  }

  /** The correction is the calibrated value at 20 C and 65 %, and falls
      linearly by 360 Ohm per degree and 180 Ohm per percent of humidity. */
  lemma CompensationLinear(t: real, h: real)
    ensures CompensatedR0(Some(t), Some(h)) == R0_CALIBRATION_OHMS - 360.0 * (t - T_REF) - 180.0 * (h - H_REF)
    ensures CompensatedR0(Some(T_REF), Some(H_REF)) == R0_CALIBRATION_OHMS
  {
  }

  /** Over the DHT11's temperature range (0 to 50 C) and any humidity, the
      corrected R0 stays at or above 900 Ohm. */
  lemma CompensatedR0PositiveInRange(t: real, h: real)
    requires 0.0 <= t <= 50.0 && 0.0 <= h <= 100.0
    ensures CompensatedR0(Some(t), Some(h)) >= 900.0
  {
  }

  /** Nothing guards the correction: at 70 C and 65 % it is zero, and hotter
      than that negative. */
  lemma CompensationUnguarded(t: real)
    ensures CompensatedR0(Some(70.0), Some(H_REF)) == 0.0
    ensures t > 70.0 ==> CompensatedR0(Some(t), Some(H_REF)) < 0.0
  {
  }

  /** The pollution percentage for a mean raw count and the climate readings. */
  function PollutionPercent(raw: real, temperature: Option<real>, humidity: Option<real>): (p: real)
    requires CompensatedR0(temperature, humidity) != 0.0
    ensures 0.0 <= p <= 100.0
  {
    PercentAt(ToVolts(raw), CompensatedR0(temperature, humidity))
  }

  /** One pass of `loop`: climate, correction, sample, convert, clamp. */
  method Loop(temperature: Option<real>, humidity: Option<real>, counts: seq<int>)
      returns (pollutionPercent: real)
    requires CompensatedR0(temperature, humidity) != 0.0
    requires |counts| == SAMPLES_PER_READING
    ensures pollutionPercent == PollutionPercent(Mean(counts), temperature, humidity)
    ensures 0.0 <= pollutionPercent <= 100.0
  {
    var r0Compensated := R0_CALIBRATION_OHMS;
    if temperature.Some? && humidity.Some? {
      r0Compensated := R0_CALIBRATION_OHMS * (1.0 - TEMP_COEFF * (temperature.value - T_REF)
                                                  - HUMIDITY_COEFF * (humidity.value - H_REF));
    }
    var sensorRawValue := GetSmoothedSensorValue(counts, SAMPLES_PER_READING);
    var sensorVoltage := ToVolts(sensorRawValue);
    var rsGas := SensorResistance(sensorVoltage);
    var ratio := RatioOf(rsGas, r0Compensated);
    pollutionPercent := Percent(ratio);
    assert pollutionPercent == PercentAt(sensorVoltage, r0Compensated);
  }

  /** Without a full climate reading the professional sketch reads exactly
      what the basic one does. */
  lemma WithoutClimateMatchesBasic(raw: real, temperature: Option<real>, humidity: Option<real>)
    requires temperature.None? || humidity.None?
    ensures PollutionPercent(raw, temperature, humidity) == Mq136Basic.PollutionPercent(raw)
  {
  }

  /** With a negative corrected R0 the ratio turns negative, and any reading
      below the supply voltage saturates at 100 %. */
  lemma NegativeR0Saturates(raw: real, temperature: Option<real>, humidity: Option<real>)
    requires CompensatedR0(temperature, humidity) < 0.0
    requires 0.0 < ToVolts(raw) < SUPPLY_VOLTS
    ensures PollutionPercent(raw, temperature, humidity) == 100.0
  {
  }

  /** With a positive corrected R0 a higher mean count never reads as
      cleaner air. */
  lemma NonDecreasingInCount(raw1: real, raw2: real, temperature: Option<real>, humidity: Option<real>)
    requires CompensatedR0(temperature, humidity) > 0.0
    requires 0.0 < raw1 <= raw2
    ensures PollutionPercent(raw1, temperature, humidity) <= PollutionPercent(raw2, temperature, humidity)
  {
    ToVoltsMonotone(raw1, raw2);
    PercentNonDecreasingInVoltage(ToVolts(raw1), ToVolts(raw2), CompensatedR0(temperature, humidity));
  }
}
