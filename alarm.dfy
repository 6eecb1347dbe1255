/** The decision rules of the safety monitor sketch (src/main.cpp), as pure
    functions of one loop pass: the gas rule over the three MQ channels, the
    seismic band over two accelerometer snapshots, the banner priority, and
    which of "redraw", "report" fire at a given clock reading. */
module Alarm {
  import opened Wrappers
  import opened Clock

  /** Volts a gas channel may rise above its clean-air baseline before it
      alarms (`SENSITIVITY`). */
  const SENSITIVITY: real := 0.8

  /** Redraw and report intervals in milliseconds; each fires only once the
      unsigned elapsed time strictly exceeds it. */
  const ALARM_REDRAW_MS: nat := 200
  const CALM_REDRAW_MS: nat := 500
  const ALARM_REPORT_MS: nat := 3000
  const CALM_REPORT_MS: nat := 30000
  const NETWORK_CHECK_MS: nat := 10000

  /** Accelerometer counts per g at the power-on full scale of +-2 g. */
  const COUNTS_PER_G: int := 16384
  /** The open band of summed per-axis change, in g, classed as a quake. */
  const QUAKE_LOW_G: real := 0.5
  const QUAKE_HIGH_G: real := 10.0

  // ---------------------------------------------------------------- gas

  /** One gas channel as a loop pass sees it: whether its digital comparator
      line reads LOW, its stable voltage and its calibrated baseline. */
  datatype GasChannel = GasChannel(lineLow: bool, volts: real, baseline: real)

  predicate ChannelAlarm(c: GasChannel)
  {
    c.lineLow || c.volts > c.baseline + SENSITIVITY
  }

  /** `alarmGas`: any of the MQ-6, MQ-9, MQ-7 channels alarms. */
  predicate GasAlarm(mq6: GasChannel, mq9: GasChannel, mq7: GasChannel)
  {
    ChannelAlarm(mq6) || ChannelAlarm(mq9) || ChannelAlarm(mq7)
  }

  /** A channel alarms when its line is LOW, whatever its voltage; with the
      line HIGH it alarms exactly when the voltage is strictly above
      baseline + 0.8 V, so a voltage equal to that threshold does not. */
  lemma ChannelThreshold(c: GasChannel)
    ensures c.lineLow ==> ChannelAlarm(c)
    ensures !c.lineLow ==> (ChannelAlarm(c) <==> c.volts > c.baseline + SENSITIVITY)
    ensures !c.lineLow && c.volts == c.baseline + SENSITIVITY ==> !ChannelAlarm(c)
  {
  }

  /** A channel that alarms keeps alarming when its voltage rises or its
      line drops to LOW. */
  lemma ChannelAlarmMonotone(c: GasChannel, volts: real, lineLow: bool)
    requires ChannelAlarm(c)
    requires volts >= c.volts && (c.lineLow ==> lineLow)
    ensures ChannelAlarm(GasChannel(lineLow, volts, c.baseline))
  {
  }

  // ------------------------------------------------------------ seismic

  /** A signed 16-bit accelerometer register value. */
  type Int16 = x: int | -0x8000 <= x < 0x8000

  /** One raw accelerometer snapshot in counts. */
  datatype Accel = Accel(x: Int16, y: Int16, z: Int16)

  /** An acceleration in g, as the sketch keeps it in `lastX/lastY/lastZ`. */
  datatype Vec = Vec(x: real, y: real, z: real)

  function InG(a: Accel): Vec
  {
    Vec(a.x as real / COUNTS_PER_G as real,
        a.y as real / COUNTS_PER_G as real,
        a.z as real / COUNTS_PER_G as real)
  }

  function Abs(r: real): real
  {
    if r < 0.0 then -r else r
  }

  function AbsInt(n: int): nat
  {
    if n < 0 then -n else n
  }

  /** `delta`: the L1 distance between the stored and the new snapshot. */
  function Delta(prev: Vec, cur: Vec): (d: real)
  {
    Abs(cur.x - prev.x) + Abs(cur.y - prev.y) + Abs(cur.z - prev.z)
  }

  /** The same distance measured in raw counts. */
  function RawDelta(prev: Accel, cur: Accel): nat
  {
    AbsInt(cur.x - prev.x) + AbsInt(cur.y - prev.y) + AbsInt(cur.z - prev.z)
  }

  /** Both bounds exclusive: at or below 0.5 g is ordinary vibration, at or
      above 10 g a glitch. */
  predicate InQuakeBand(delta: real)
  {
    delta > QUAKE_LOW_G && delta < QUAKE_HIGH_G
  }

  /** Because the scale is a power of two, the g-valued delta is the raw
      count distance divided by 16384, and the band is 8192 < counts < 163840. */
  lemma QuakeBandInCounts(prev: Accel, cur: Accel)
    ensures Delta(InG(prev), InG(cur)) == RawDelta(prev, cur) as real / COUNTS_PER_G as real
    ensures InQuakeBand(Delta(InG(prev), InG(cur))) <==> 8192 < RawDelta(prev, cur) < 163840
  {
  }

  /** A repeated identical snapshot is never a quake. */
  lemma StillIsNotQuake(a: Accel)
    ensures !InQuakeBand(Delta(InG(a), InG(a)))
  {
  }

  /** `delta` is a distance: never negative, and zero exactly when the new
      snapshot equals the stored one. */
  lemma DeltaIsDistance(prev: Vec, cur: Vec)
    ensures Delta(prev, cur) >= 0.0
    ensures Delta(prev, cur) == 0.0 <==> prev == cur
  {
  }

  // ------------------------------------------------------------- banner

  datatype Reason = Fire | Quake | Gas

  /** The banner of an alarm pass: fire first, then quake, then gas. */
  function Cause(fire: bool, gas: bool, quake: bool): (r: Reason)
    requires fire || gas || quake
    ensures r == Fire ==> fire
    ensures r == Quake ==> quake
    ensures r == Gas ==> gas
    ensures fire ==> r == Fire
    ensures quake ==> r != Gas
  {
    if fire then Fire else if quake then Quake else Gas
  }

  // ---------------------------------------------------------- one pass

  /** What a loop pass has observed, after sampling: the fire line, the gas
      rule, the seismic verdict, and the values a report carries. */
  datatype Readings = Readings(fire: bool, gas: bool, quake: bool, lpg: real, co: real, temp: real)

  predicate Alarmed(r: Readings)
  {
    r.fire || r.gas || r.quake
  }

  /** What the display shows this pass: nothing new, the alarm banner, or the
      calm telemetry screen. */
  datatype Screen = Keep | Banner(reason: Reason) | Calm

  /** The flags and values of one HTTP report. */
  datatype Report = Report(alarm: bool, fire: bool, gas: bool, quake: bool, lpg: real, co: real, temp: real)

  datatype Cycle = Cycle(screen: Screen, report: Option<Report>)

  /** The display and report decisions of one pass of `loop`, from the clock
      reading, the two timestamps, and the readings. The alarm branch ends the
      pass early; the calm report is nested in the calm redraw. */
  function Decide(now: Millis, timerLCD: Millis, lastDataSent: Millis, r: Readings): Cycle
  {
    if Alarmed(r) then
      Cycle(if Due(now, timerLCD, ALARM_REDRAW_MS) then Banner(Cause(r.fire, r.gas, r.quake)) else Keep,
            if Due(now, lastDataSent, ALARM_REPORT_MS)
            then Some(Report(true, r.fire, r.gas, r.quake, r.lpg, r.co, r.temp))
            else None)
    else if Due(now, timerLCD, CALM_REDRAW_MS) then
      Cycle(Calm,
            if Due(now, lastDataSent, CALM_REPORT_MS)
            then Some(Report(false, false, false, false, r.lpg, r.co, r.temp))
            else None)
    else
      Cycle(Keep, None)
  }

  /** The screen matches the alarm state: the banner only in alarm, naming
      its highest-priority cause, the calm screen only without alarm; and the
      display redraws exactly when its interval (200 ms in alarm, 500 ms
      calm) has passed. */
  lemma ScreenFollowsAlarm(now: Millis, timerLCD: Millis, lastDataSent: Millis, r: Readings)
    ensures Decide(now, timerLCD, lastDataSent, r).screen.Banner? ==>
              Alarmed(r) && Decide(now, timerLCD, lastDataSent, r).screen.reason == Cause(r.fire, r.gas, r.quake)
    ensures Decide(now, timerLCD, lastDataSent, r).screen.Calm? ==> !Alarmed(r)
    ensures !Decide(now, timerLCD, lastDataSent, r).screen.Keep? <==>
              Due(now, timerLCD, if Alarmed(r) then ALARM_REDRAW_MS else CALM_REDRAW_MS)
  {
  }

  /** A report goes out in alarm once 3 s have passed since the last one, and
      while calm only in a pass that also redraws and once 30 s have passed;
      an alarm report carries the three causes, a calm report all flags
      false. */
  lemma ReportFollowsAlarm(now: Millis, timerLCD: Millis, lastDataSent: Millis, r: Readings)
    ensures Decide(now, timerLCD, lastDataSent, r).report.Some? <==>
              if Alarmed(r) then Due(now, lastDataSent, ALARM_REPORT_MS)
              else Due(now, timerLCD, CALM_REDRAW_MS) && Due(now, lastDataSent, CALM_REPORT_MS)
    ensures Decide(now, timerLCD, lastDataSent, r).report.Some? ==>
              var rep := Decide(now, timerLCD, lastDataSent, r).report.value;
              && rep.alarm == Alarmed(r)
              && (rep.alarm ==> rep.fire == r.fire && rep.gas == r.gas && rep.quake == r.quake)
              && (!rep.alarm ==> !rep.fire && !rep.gas && !rep.quake)
              && rep.lpg == r.lpg && rep.co == r.co && rep.temp == r.temp
    ensures Decide(now, timerLCD, lastDataSent, r).report.Some? && !Alarmed(r) ==>
              Decide(now, timerLCD, lastDataSent, r).screen == Calm
  {
  }

  /** After a report stamped at `t`, no pass sends again within 3 s, whatever
      the alarm state and however the clock has wrapped; a calm pass not
      within 30 s. */
  lemma ReportsSpaced(t: Millis, d: nat, timerLCD: Millis, r: Readings)
    requires d <= (if Alarmed(r) then ALARM_REPORT_MS else CALM_REPORT_MS)
    ensures Decide(Later(t, d), timerLCD, t, r).report.None?
  {
  }

  /** While the alarm holds, a report goes out at every pass more than 3 s
      after the last one, across the wrap of the clock too. */
  lemma AlarmReportedAfterInterval(t: Millis, d: nat, timerLCD: Millis, r: Readings)
    requires Alarmed(r)
    requires ALARM_REPORT_MS < d < MODULUS
    ensures Decide(Later(t, d), timerLCD, t, r).report.Some?
    ensures Decide(Later(t, d), timerLCD, t, r).report.value.alarm
  {
  }

  /** After a redraw stamped at `t`, the display is not redrawn within 200 ms
      in alarm or 500 ms calm. */
  lemma RedrawsSpaced(t: Millis, d: nat, lastDataSent: Millis, r: Readings)
    requires d <= (if Alarmed(r) then ALARM_REDRAW_MS else CALM_REDRAW_MS)
    ensures Decide(Later(t, d), t, lastDataSent, r).screen.Keep?
  {
  }

  /** Raising any cause never clears an alarm. */
  lemma AlarmMonotone(r: Readings, fire: bool, gas: bool, quake: bool)
    requires Alarmed(r)
    requires (r.fire ==> fire) && (r.gas ==> gas) && (r.quake ==> quake)
    ensures Alarmed(r.(fire := fire, gas := gas, quake := quake))
  {
  }
}
