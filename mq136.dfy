/** The MQ-136 pollution pipeline that src/main_basic.cpp and
    src/main_pro.cpp share line for line: average the ADC, convert to
    volts, derive the sensor resistance RS across the load resistor, divide
    by a reference R0 and map the ratio linearly to a clamped percentage
    (ratio 1.0 is 0 %, ratio 0.3 is 100 %). */
module Mq136 {
  import opened Adc

  /** Load resistor on the sensor board, in ohms. */
  const LOAD_RESISTOR_OHMS: real := 5000.0
  /** Sensor resistance in clean air, in ohms. */
  const R0_CALIBRATION_OHMS: real := 18000.0
  /** RS / R0 at which the reading is 100 %. */
  const RATIO_FOR_100_PERCENT: real := 0.3
  /** Samples per reading, the `25` both sketches pass. */
  const SAMPLES_PER_READING: int := 25
  /** Supply across sensor and load resistor. */
  const SUPPLY_VOLTS: real := 3.3

  /** `mapf`: the line through (inMin, outMin) and (inMax, outMax). */
  function Mapf(x: real, inMin: real, inMax: real, outMin: real, outMax: real): (y: real)
    requires inMax != inMin
    ensures x == inMin ==> y == outMin
    ensures x == inMax ==> y == outMax
  {
    var y := (x - inMin) * (outMax - outMin) / (inMax - inMin) + outMin;
    assert x == inMax ==> (x - inMin) * (outMax - outMin) / (inMax - inMin) == outMax - outMin;
    y
  }

  /** `mapf` is affine: equal steps in x give equal steps in y, with slope
      (outMax - outMin) / (inMax - inMin). */
  lemma MapfAffine(x1: real, x2: real, inMin: real, inMax: real, outMin: real, outMax: real)
    requires inMax != inMin
    ensures Mapf(x1, inMin, inMax, outMin, outMax) - Mapf(x2, inMin, inMax, outMin, outMax)
            == (x1 - x2) * ((outMax - outMin) / (inMax - inMin))
  {
  }

  /** Arduino's `constrain(x, lo, hi)`. */
  function Constrain(x: real, lo: real, hi: real): (y: real)
    ensures lo <= hi ==> lo <= y <= hi
    ensures lo <= x <= hi ==> y == x
    ensures x < lo ==> y == lo
    ensures lo <= x && hi < x ==> y == hi
  {
    if x < lo then lo else if x > hi then hi else x
  }

  /** `getSmoothedSensorValue`: consumes exactly `samples` reads and
      returns their mean, which lies between the smallest and largest read. */
  method GetSmoothedSensorValue(counts: seq<int>, samples: int) returns (raw: real)
    requires samples > 0 && |counts| == samples
    ensures raw == Mean(counts)
    ensures Min(counts) as real <= raw <= Max(counts) as real
  {
    var totalValue := 0;
    for i := 0 to samples
      invariant totalValue == Sum(counts[..i])
    {
      SumSnoc(counts, i);
      totalValue := totalValue + counts[i];
    }
    assert counts[..samples] == counts;
    raw := totalValue as real / samples as real;
    MeanWithinReads(counts);
  }

  /** The sensor resistance. At 0 V the float division yields +infinity
      (`Unbounded`); otherwise RS = 3.3 * RL / V - RL, clamped at 0. */
  datatype Resistance = Ohms(value: real) | Unbounded

  function SensorResistance(v: real): (rs: Resistance)
    ensures rs.Unbounded? <==> v == 0.0
    ensures rs.Ohms? ==> rs.value >= 0.0
    ensures rs.Ohms? ==> (rs.value > 0.0 <==> 0.0 < v < SUPPLY_VOLTS)
  {
    if v == 0.0 then Unbounded
    else
      var rs := SUPPLY_VOLTS * LOAD_RESISTOR_OHMS / v - LOAD_RESISTOR_OHMS;
      ResistanceSign(v);
      Ohms(if rs < 0.0 then 0.0 else rs)
  }

  lemma ResistanceSign(v: real)
    requires v != 0.0
    ensures SUPPLY_VOLTS * LOAD_RESISTOR_OHMS / v - LOAD_RESISTOR_OHMS > 0.0 <==> 0.0 < v < SUPPLY_VOLTS
  {
  }

  /** RS / R0, with the signed infinity the float division gives for an
      unbounded RS. */
  datatype Ratio = Finite(value: real) | PlusInfinity | MinusInfinity

  function RatioOf(rs: Resistance, r0: real): (q: Ratio)
    requires r0 != 0.0
    ensures rs.Ohms? <==> q.Finite?
    ensures rs.Ohms? && rs.value >= 0.0 && r0 > 0.0 ==> q.value >= 0.0
    ensures rs.Unbounded? ==> (q.PlusInfinity? <==> r0 > 0.0)
  {
    match rs
    case Unbounded => if r0 > 0.0 then PlusInfinity else MinusInfinity
    case Ohms(x) =>
      if x >= 0.0 && r0 > 0.0 then QuotientNonNegative(x, r0); Finite(x / r0)
      else Finite(x / r0)
  }

  /** The clamped percentage: always in [0, 100], exactly 0 for a ratio of
      1.0 or more, exactly 100 for a ratio of 0.3 or less. An infinite ratio
      maps to -infinity (+infinity) and is clamped to 0 (100). */
  function Percent(q: Ratio): (p: real)
    ensures 0.0 <= p <= 100.0
    ensures q.Finite? ==> (p == 0.0 <==> q.value >= 1.0)
    ensures q.Finite? ==> (p == 100.0 <==> q.value <= RATIO_FOR_100_PERCENT)
    ensures q.PlusInfinity? ==> p == 0.0
    ensures q.MinusInfinity? ==> p == 100.0
  {
    match q
    case Finite(x) =>
      MapOnScale(x);
      Constrain(Mapf(x, 1.0, RATIO_FOR_100_PERCENT, 0.0, 100.0), 0.0, 100.0)
    case PlusInfinity => 0.0
    case MinusInfinity => 100.0
  }

  /** The map used by both sketches, written out: 1000 / 7 percent per unit
      of ratio below 1.0. */
  lemma MapOnScale(x: real)
    ensures Mapf(x, 1.0, RATIO_FOR_100_PERCENT, 0.0, 100.0) == (1.0 - x) * 1000.0 / 7.0
  {
  }

  /** A higher ratio never gives a higher percentage (the map runs from
      ratio 1.0 down to ratio 0.3). */
  lemma PercentNonIncreasing(x: real, y: real)
    requires x <= y
    ensures Percent(Finite(y)) <= Percent(Finite(x))
  {
  }

  /** The percentage read at sensor voltage `v` against reference `r0`. */
  function PercentAt(v: real, r0: real): (p: real)
    requires r0 != 0.0
    ensures 0.0 <= p <= 100.0
  {
    Percent(RatioOf(SensorResistance(v), r0))
  }

  /** With a positive reference, a higher sensor voltage never gives a lower
      percentage. */
  lemma PercentNonDecreasingInVoltage(v1: real, v2: real, r0: real)
    requires 0.0 < v1 <= v2 && r0 > 0.0
    ensures PercentAt(v1, r0) <= PercentAt(v2, r0)
  {
    var a := SUPPLY_VOLTS * LOAD_RESISTOR_OHMS;
    QuotientAntitone(a, v1, v2);
    var rs1, rs2 := SensorResistance(v1).value, SensorResistance(v2).value;
    assert rs2 <= rs1;
    QuotientMonotone(rs2, rs1, r0);
    PercentNonIncreasing(rs2 / r0, rs1 / r0);
  }

  // ------------------------------------------- real-division helpers

  lemma QuotientNonNegative(a: real, b: real)
    requires a >= 0.0 && b > 0.0
    ensures a / b >= 0.0
  {
  }

  /** a / v > c exactly when v < a / c, for positive v and c. */
  lemma QuotientAtLeast(a: real, v: real, c: real)
    requires v > 0.0 && c > 0.0
    ensures a / v > c <==> v < a / c
  {
  }

  lemma QuotientAntitone(a: real, v1: real, v2: real)
    requires a >= 0.0 && 0.0 < v1 <= v2
    ensures a / v2 <= a / v1
  {
  }

  /** x / d compared with c is x compared with c * d, for positive d. */
  lemma QuotientVersusBound(x: real, d: real, c: real)
    requires d > 0.0
    ensures x / d >= c <==> x >= c * d
    ensures x / d <= c <==> x <= c * d
  {
  }

  lemma QuotientMonotone(x: real, y: real, d: real)
    requires x <= y && d > 0.0
    ensures x / d <= y / d
  {
  }
}
