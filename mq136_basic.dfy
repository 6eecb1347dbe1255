/** The basic MQ-136 sketch (src/main_basic.cpp): every five seconds one
    25-sample reading against the fixed clean-air R0 of 18 kOhm. */
module Mq136Basic {
  import opened Adc
  import opened Mq136

  /** The pollution percentage for a mean raw count. */
  function PollutionPercent(raw: real): (p: real)
    ensures 0.0 <= p <= 100.0
  {
    PercentAt(ToVolts(raw), R0_CALIBRATION_OHMS)
  }

  /** One pass of `loop`: sample, convert, clamp. */
  method Loop(counts: seq<int>) returns (pollutionPercent: real)
    requires |counts| == SAMPLES_PER_READING
    ensures pollutionPercent == PollutionPercent(Mean(counts))
    ensures 0.0 <= pollutionPercent <= 100.0
  {
    var sensorRawValue := GetSmoothedSensorValue(counts, SAMPLES_PER_READING);
    var sensorVoltage := ToVolts(sensorRawValue);
    var rsGas := SensorResistance(sensorVoltage);
    var ratio := RatioOf(rsGas, R0_CALIBRATION_OHMS);
    pollutionPercent := Percent(ratio);
    assert pollutionPercent == PercentAt(sensorVoltage, R0_CALIBRATION_OHMS);
  }

  /** The ratio against the fixed R0 is never negative for a real voltage. */
  lemma RatioNonNegative(raw: real)
    requires raw != 0.0
    ensures RatioOf(SensorResistance(ToVolts(raw)), R0_CALIBRATION_OHMS).Finite?
    ensures RatioOf(SensorResistance(ToVolts(raw)), R0_CALIBRATION_OHMS).value >= 0.0
  {
  }

  /** Where the scale ends in volts: 0 % exactly at or below 33/46 V
      (RS >= R0), 100 % exactly at or above 165/104 V (RS <= 0.3 R0). With no
      signal at all (0 V) the float division gives an infinite RS, which
      also reads 0 %. */
  lemma ScaleEndsInVolts(raw: real)
    requires raw >= 0.0
    ensures ToVolts(raw) > 0.0 ==> (PollutionPercent(raw) == 0.0 <==> ToVolts(raw) <= 33.0 / 46.0)
    ensures ToVolts(raw) > 0.0 ==> (PollutionPercent(raw) == 100.0 <==> ToVolts(raw) >= 165.0 / 104.0)
    ensures raw == 0.0 ==> PollutionPercent(raw) == 0.0
  {
    var v := ToVolts(raw);
    if v > 0.0 {
      var a := SUPPLY_VOLTS * LOAD_RESISTOR_OHMS;
      var rs := SensorResistance(v).value;
      // ratio >= 1.0  <==>  RS >= 18000  <==>  a / v >= 23000
      QuotientAtLeast(a, v, 23000.0);
      assert a / 23000.0 == 33.0 / 46.0;
      QuotientVersusBound(rs, R0_CALIBRATION_OHMS, 1.0);
      // ratio <= 0.3  <==>  RS <= 5400  <==>  a / v <= 10400
      QuotientAtLeast(a, v, 10400.0);
      assert a / 10400.0 == 165.0 / 104.0;
      QuotientVersusBound(rs, R0_CALIBRATION_OHMS, RATIO_FOR_100_PERCENT);
    }
  }

  /** A higher mean count never reads as cleaner air. */
  lemma NonDecreasingInCount(raw1: real, raw2: real)
    requires 0.0 < raw1 <= raw2
    ensures PollutionPercent(raw1) <= PollutionPercent(raw2)
  {
    ToVoltsMonotone(raw1, raw2);
    PercentNonDecreasingInVoltage(ToVolts(raw1), ToVolts(raw2), R0_CALIBRATION_OHMS);
  }
}
