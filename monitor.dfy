/** The safety monitor sketch (src/main.cpp) as a stateful object: its
    globals become the fields of `Monitor`, `setup` its constructor, and
    `loop` one call of `Loop` with the hardware readings as inputs. */
module SafetyMonitor {
  import opened Wrappers
  import opened Adc
  import opened Clock
  import opened Alarm

  /** Reads averaged by `readStableVoltage`. */
  const READS_PER_VOLTAGE: int := 10
  /** Reads per channel taken by `calibrateSensors` (50 x 200 ms = 10 s). */
  const CALIBRATION_READS: int := 50

  /** The stable voltage of a channel: the mean of its ten reads, in volts. */
  function StableVolts(counts: seq<int>): real
    requires |counts| == READS_PER_VOLTAGE
  {
    ToVolts(Mean(counts))
  }

  /** `readStableVoltage`: consumes exactly ten ADC reads of one pin. */
  method ReadStableVoltage(counts: seq<int>) returns (v: real)
    requires |counts| == READS_PER_VOLTAGE
    ensures v == StableVolts(counts)
    ensures ToVolts(Min(counts) as real) <= v <= ToVolts(Max(counts) as real)
  {
    var sum := 0;
    for i := 0 to READS_PER_VOLTAGE
      invariant sum == Sum(counts[..i])
    {
      SumSnoc(counts, i);
      sum := sum + counts[i];
    }
    assert counts[..READS_PER_VOLTAGE] == counts;
    ghost var mean := Mean(counts);
    assert sum as real / 10.0 == mean;
    v := ToVolts(sum as real / 10.0);
    MeanWithinReads(counts);
    ToVoltsMonotone(Min(counts) as real, mean);
    ToVoltsMonotone(mean, Max(counts) as real);
  }

  /** The hardware side of one loop pass: the digital lines (true when the
      pin reads LOW), the ten ADC reads of each gas channel, the
      accelerometer snapshot (None when fewer than six bytes arrive), the
      MPU temperature and the Wi-Fi link state. */
  datatype Inputs = Inputs(
    fireLineLow: bool,
    mq6LineLow: bool, mq9LineLow: bool, mq7LineLow: bool,
    mq6Reads: seq<int>, mq9Reads: seq<int>, mq7Reads: seq<int>,
    accel: Option<Accel>,
    mpuTemp: real,
    wifiConnected: bool)

  predicate Sampled(inputs: Inputs)
  {
    && |inputs.mq6Reads| == READS_PER_VOLTAGE
    && |inputs.mq9Reads| == READS_PER_VOLTAGE
    && |inputs.mq7Reads| == READS_PER_VOLTAGE
  }

  class Monitor {
    var lastNetworkCheck: Millis
    var lastDataSent: Millis
    var timerLCD: Millis
    var mpuInitialized: bool
    /** Last accelerometer snapshot in g. */
    var lastX: real
    var lastY: real
    var lastZ: real
    /** The raw snapshot the g values were computed from. */
    ghost var lastRaw: Accel
    /** Clean-air baseline voltages of the three gas channels. */
    var baseMQ6: real
    var baseMQ9: real
    var baseMQ7: real

    /** The stored snapshot is always the g value of some raw register triple. */
    ghost predicate Valid()
      reads this`lastX, this`lastY, this`lastZ, this`lastRaw
    {
      Last() == InG(lastRaw)
    }

    function Last(): Vec
      reads this`lastX, this`lastY, this`lastZ
    {
      Vec(lastX, lastY, lastZ)
    }

    /** `setup`: globals start at zero, the MPU handshake result is kept, one
        accelerometer poll primes the stored snapshot, then the three gas
        channels are calibrated. */
    constructor Setup(mpuAcked: bool, primer: Option<Accel>,
                      mq6Reads: seq<int>, mq9Reads: seq<int>, mq7Reads: seq<int>)
      requires |mq6Reads| == CALIBRATION_READS
      requires |mq9Reads| == CALIBRATION_READS
      requires |mq7Reads| == CALIBRATION_READS
      ensures Valid()
      ensures mpuInitialized == mpuAcked
      ensures lastNetworkCheck == 0 && lastDataSent == 0 && timerLCD == 0
      ensures Last() == if mpuAcked && primer.Some? then InG(primer.value) else Vec(0.0, 0.0, 0.0)
      ensures baseMQ6 == ToVolts(Mean(mq6Reads))
      ensures baseMQ9 == ToVolts(Mean(mq9Reads))
      ensures baseMQ7 == ToVolts(Mean(mq7Reads))
    {
      lastNetworkCheck, lastDataSent, timerLCD := 0, 0, 0;
      lastX, lastY, lastZ := 0.0, 0.0, 0.0;
      lastRaw := Accel(0, 0, 0);
      baseMQ6, baseMQ9, baseMQ7 := 0.0, 0.0, 0.0;
      mpuInitialized := mpuAcked;
      new;
      var _ := CheckEarthquake(primer);
      CalibrateSensors(mq6Reads, mq9Reads, mq7Reads);
    }

    /** `calibrateSensors`: fifty reads per channel, each baseline the mean
        of its own channel's reads in volts. The sums are floats in the
        sketch; they hold integers below 2^24 there, so they are exact. */
    method CalibrateSensors(mq6Reads: seq<int>, mq9Reads: seq<int>, mq7Reads: seq<int>)
      requires |mq6Reads| == CALIBRATION_READS
      requires |mq9Reads| == CALIBRATION_READS
      requires |mq7Reads| == CALIBRATION_READS
      modifies this`baseMQ6, this`baseMQ9, this`baseMQ7
      ensures baseMQ6 == ToVolts(Mean(mq6Reads))
      ensures baseMQ9 == ToVolts(Mean(mq9Reads))
      ensures baseMQ7 == ToVolts(Mean(mq7Reads))
    {
      var s6, s9, s7 := 0.0, 0.0, 0.0;
      var count := CALIBRATION_READS;
      for i := 0 to count
        invariant s6 == Sum(mq6Reads[..i]) as real
        invariant s9 == Sum(mq9Reads[..i]) as real
        invariant s7 == Sum(mq7Reads[..i]) as real
      {
        SumSnoc(mq6Reads, i);
        SumSnoc(mq9Reads, i);
        SumSnoc(mq7Reads, i);
        s6 := s6 + mq6Reads[i] as real;
        s9 := s9 + mq9Reads[i] as real;
        s7 := s7 + mq7Reads[i] as real;
      }
      assert mq6Reads[..count] == mq6Reads;
      assert mq9Reads[..count] == mq9Reads;
      assert mq7Reads[..count] == mq7Reads;
      baseMQ6 := ToVolts(s6 / count as real);
      baseMQ9 := ToVolts(s9 / count as real);
      baseMQ7 := ToVolts(s7 / count as real);
    }

    /** `checkEarthquake`: without an initialised MPU or a full six-byte
        read it reports no quake and keeps the stored snapshot; otherwise it
        stores the new snapshot unconditionally and reports a quake exactly
        when the summed per-axis change lies strictly between 0.5 g and
        10 g, i.e. between 8192 and 163840 raw counts. */
    method CheckEarthquake(snapshot: Option<Accel>) returns (quake: bool)
      requires Valid()
      modifies this`lastX, this`lastY, this`lastZ, this`lastRaw
      ensures Valid()
      ensures !mpuInitialized || snapshot.None? ==>
                !quake && Last() == old(Last()) && lastRaw == old(lastRaw)
      ensures mpuInitialized && snapshot.Some? ==>
                && lastRaw == snapshot.value
                && Last() == InG(snapshot.value)
                && quake == InQuakeBand(Delta(old(Last()), InG(snapshot.value)))
                && (quake <==> 8192 < RawDelta(old(lastRaw), snapshot.value) < 163840)
    {
      if !mpuInitialized {
        return false;
      }
      if snapshot.None? {
        return false;
      }
      var a := snapshot.value;
      var cur := InG(a);
      var delta := Delta(Last(), cur);
      QuakeBandInCounts(lastRaw, a);
      lastX, lastY, lastZ := cur.x, cur.y, cur.z;
      lastRaw := a;
      quake := delta > QUAKE_LOW_G && delta < QUAKE_HIGH_G;
    }

    /** `checkNetwork`: acts (and restamps) only once more than 10 s of
        unsigned elapsed time have passed; it then asks for a reconnect when
        the link is down. */
    method CheckNetwork(now: Millis, wifiConnected: bool) returns (reconnect: bool)
      modifies this`lastNetworkCheck
      ensures lastNetworkCheck == if Due(now, old(lastNetworkCheck), NETWORK_CHECK_MS) then now else old(lastNetworkCheck)
      ensures reconnect == (Due(now, old(lastNetworkCheck), NETWORK_CHECK_MS) && !wifiConnected)
    {
      reconnect := false;
      if Elapsed(now, lastNetworkCheck) > NETWORK_CHECK_MS {
        lastNetworkCheck := now;
        if !wifiConnected {
          reconnect := true;
        }
      }
    }

    /** What a pass observes in the current state: the fire line, the gas
        rule against the stored baselines, the seismic verdict against the
        stored snapshot, and the MQ-6 and MQ-7 voltages for the report. */
    function Observe(inputs: Inputs): Readings
      reads this
      requires Sampled(inputs)
    {
      Readings(
        inputs.fireLineLow,
        GasAlarm(GasChannel(inputs.mq6LineLow, StableVolts(inputs.mq6Reads), baseMQ6),
                 GasChannel(inputs.mq9LineLow, StableVolts(inputs.mq9Reads), baseMQ9),
                 GasChannel(inputs.mq7LineLow, StableVolts(inputs.mq7Reads), baseMQ7)),
        mpuInitialized && inputs.accel.Some? && InQuakeBand(Delta(Last(), InG(inputs.accel.value))),
        StableVolts(inputs.mq6Reads),
        StableVolts(inputs.mq7Reads),
        inputs.mpuTemp)
    }

    /** Step 2 of `loop`: the fire line, the three stable voltages, the gas
        rule and the seismic poll. The readings are those `Observe` gives
        in the state before the step; only the stored snapshot changes. */
    method Sense(inputs: Inputs) returns (r: Readings)
      requires Valid() && Sampled(inputs)
      modifies this`lastX, this`lastY, this`lastZ, this`lastRaw
      ensures Valid()
      ensures r == old(Observe(inputs))
      ensures Last() == if mpuInitialized && inputs.accel.Some? then InG(inputs.accel.value) else old(Last())
    {
      var fire := inputs.fireLineLow;
      var vMQ6 := ReadStableVoltage(inputs.mq6Reads);
      var vMQ9 := ReadStableVoltage(inputs.mq9Reads);
      var vMQ7 := ReadStableVoltage(inputs.mq7Reads);

      var alarmGas := inputs.mq6LineLow || vMQ6 > baseMQ6 + SENSITIVITY ||
                      inputs.mq9LineLow || vMQ9 > baseMQ9 + SENSITIVITY ||
                      inputs.mq7LineLow || vMQ7 > baseMQ7 + SENSITIVITY;

      var earthquake := CheckEarthquake(inputs.accel);
      r := Readings(fire, alarmGas, earthquake, vMQ6, vMQ7, inputs.mpuTemp);
    }

    /** Steps 3 and 4 of `loop`: the alarm branch (banner every 200 ms,
        report every 3 s, then an early return) or the calm branch (telemetry
        every 500 ms, with a report every 30 s nested in it). The decisions
        are those of `Decide`; the LCD timer moves only on a redraw and the
        report stamp after every send attempt, whatever its outcome. */
    method Respond(now: Millis, r: Readings) returns (cycle: Cycle)
      modifies this`timerLCD, this`lastDataSent
      ensures cycle == Decide(now, old(timerLCD), old(lastDataSent), r)
      ensures timerLCD == if cycle.screen.Keep? then old(timerLCD) else now
      ensures lastDataSent == if cycle.report.None? then old(lastDataSent) else now
    {
      if r.fire || r.gas || r.quake {
        var screen := Keep;
        if Elapsed(now, timerLCD) > ALARM_REDRAW_MS {
          screen := Banner(if r.fire then Fire else if r.quake then Quake else Gas);
          timerLCD := now;
        }
        var report := None;
        if Elapsed(now, lastDataSent) > ALARM_REPORT_MS {
          report := Some(Report(true, r.fire, r.gas, r.quake, r.lpg, r.co, r.temp));
          lastDataSent := now;
        }
        cycle := Cycle(screen, report);
        return;
      }

      cycle := Cycle(Keep, None);
      if Elapsed(now, timerLCD) > CALM_REDRAW_MS {
        timerLCD := now;
        var report := None;
        if Elapsed(now, lastDataSent) > CALM_REPORT_MS {
          report := Some(Report(false, false, false, false, r.lpg, r.co, r.temp));
          lastDataSent := now;
        }
        cycle := Cycle(Calm, report);
      }
    }

    /** One pass of `loop` at clock reading `now`: the network check, the
        sensing step and the response. The baselines never change. */
    method Loop(now: Millis, inputs: Inputs) returns (reconnect: bool, cycle: Cycle)
      requires Valid() && Sampled(inputs)
      modifies this`lastNetworkCheck, this`lastDataSent, this`timerLCD
      modifies this`lastX, this`lastY, this`lastZ, this`lastRaw
      ensures Valid()
      ensures reconnect == (Due(now, old(lastNetworkCheck), NETWORK_CHECK_MS) && !inputs.wifiConnected)
      ensures lastNetworkCheck == if Due(now, old(lastNetworkCheck), NETWORK_CHECK_MS) then now else old(lastNetworkCheck)
      ensures cycle == Decide(now, old(timerLCD), old(lastDataSent), old(Observe(inputs)))
      ensures timerLCD == if cycle.screen.Keep? then old(timerLCD) else now
      ensures lastDataSent == if cycle.report.None? then old(lastDataSent) else now
      ensures Last() == if mpuInitialized && inputs.accel.Some? then InG(inputs.accel.value) else old(Last())
    {
      reconnect := CheckNetwork(now, inputs.wifiConnected);
      var r := Sense(inputs);
      cycle := Respond(now, r);
    }
  }
}
