# Safety monitor and MQ-136 pollution meter — a verified Dafny model

This project models the decision-and-arithmetic core of three Arduino sketches.

- **src/main.cpp** is a home safety monitor on an ESP32. It polls a fire line, three MQ gas channels (MQ-6, MQ-9, MQ-7) and an MPU-6050 accelerometer. It raises an alarm, draws a banner or a telemetry screen on an LCD, and posts reports to an HTTP server.
- **src/main_basic.cpp** and **src/main_pro.cpp** turn an averaged MQ-136 reading into a pollution percentage. The pro sketch first corrects R0 for temperature and humidity.

The hardware is treated as inputs: ADC reads, digital line levels, accelerometer snapshots, the clock reading, and the DHT and Wi-Fi status.

Modules:

- `Adc` (adc.dfy): sum, mean, minimum and maximum of ADC reads, and the 3.3 V / 4095 scale.
- `Clock` (clock.dfy): the 32-bit `millis()` clock. `Elapsed` is unsigned subtraction, which wraps modulo 2^32. `Due` is the `millis() - last > interval` test.
- `Alarm` (alarm.dfy): the pure rules of `loop`. These are the gas rule, the seismic band, the banner priority, and `Decide`, which says what one pass draws and reports.
- `SafetyMonitor` (monitor.dfy): class `Monitor`. Its fields are the sketch's globals: `lastNetworkCheck`, `lastDataSent`, `timerLCD`, `mpuInitialized`, `lastX/Y/Z` and `baseMQ6/9/7`. Its methods are `setup`, `calibrateSensors`, `checkEarthquake`, `checkNetwork` and `loop`. `loop` is split into its sensing step and its response step. `Loop`'s contract ties each pass to `Decide` on the state before the pass.
- `Mq136` (mq136.dfy): `mapf`, `constrain`, `getSmoothedSensorValue` and the RS → ratio → percentage steps. The two MQ-136 sketches share these line for line: src/main_pro.cpp:31-42 repeats src/main_basic.cpp:24-36. They are modelled once.
- `Mq136Basic` (mq136_basic.dfy) and `Mq136Pro` (mq136_pro.dfy): the `loop` of each sketch.

Modelling choices:

- Voltages, resistances and percentages are `real`.
- Accelerometer values are kept in g, as the sketch keeps them. A ghost raw snapshot sits beside them. The sketch divides int16 counts by 16384, a power of two. Its float differences and their three-term sum are therefore exact, and the band test 0.5 < delta < 10.0 is the same as 8192 < raw L1 distance < 163840 (`Alarm.QuakeBandInCounts`).
- The calibration sums are floats in the sketch. They hold integers below 2^24, so they are exact too.
- A division by a zero voltage gives +infinity in float, and the float pipeline carries that to 0 % for a positive R0, and to 100 % for a negative corrected R0. The model keeps this case explicitly as `Resistance.Unbounded` and the signed infinite `Ratio`s. V = 0 is therefore not a precondition.
- Points of the code that the model keeps exactly:
  - The percentage is a linear map of RS/R0 (ratio 1.0 → 0 %, 0.3 → 100 %), clamped to [0, 100].
  - Timers fire when the unsigned elapsed time strictly exceeds the interval (`>`).
  - The LCD is redrawn every 200 ms in alarm and every 500 ms when calm.
  - The calm report is sent only inside the calm redraw.
  - `checkEarthquake` keeps the stored snapshot when the MPU is not initialised or the read is short.

## Model

| member | source | states |
|---|---|---|
| `Adc.Mean` | src/main_basic.cpp:30-35 | the mean times the number of reads is their sum; bounds in `Adc.MeanWithinReads` and `Adc.MeanBounds` |
| `Adc.ToVolts` | src/main.cpp:89 | 0 counts read 0 V and the full-scale count 4095 reads 3.3 V; order kept by `Adc.ToVoltsMonotone` |
| `Adc.MeanWithinReads` | src/main.cpp:84-89 | the mean of the reads lies between the smallest and the largest read |
| `Adc.MeanBounds` | src/main_basic.cpp:30-35 | if every read lies in [lo, hi], so does their mean |
| `Adc.SumBounds` | src/main_basic.cpp:30-34 | n reads in [lo, hi] sum to a value in [n·lo, n·hi] |
| `Adc.SumFitsInLong` | src/main_basic.cpp:30-34 | 12-bit reads accumulate in a 32-bit `long` without overflow for up to 524416 samples |
| `Adc.ToVoltsMonotone` | src/main.cpp:89 | the count-to-volts scale preserves order |
| `Clock.Elapsed` | src/main.cpp:48 | unsigned `now - since` is the unique value in [0, 2^32) that, added to `since`, wraps to `now`; it is the plain difference when there is no wrap |
| `Clock.Due` | src/main.cpp:48 | definition of the `millis() - last > interval` test used at lines 48, 225, 237, 245 and 270; properties in `Clock.NotDueWithin` and `Clock.DueAfter` |
| `Clock.ElapsedAfter` | src/main.cpp:237 | unsigned subtraction measures the true delay across the clock wrap, for any delay under 2^32 ms |
| `Clock.NotDueWithin` | src/main.cpp:48 | an action stamped at t is not due again at any delay up to its interval |
| `Clock.DueAfter` | src/main.cpp:48 | an action stamped at t is due at every delay beyond its interval, short of a full wrap |
| `Alarm.ChannelAlarm` | src/main.cpp:216-218 | definition of one channel's alarm test; properties in `Alarm.ChannelThreshold` and `Alarm.ChannelAlarmMonotone` |
| `Alarm.GasAlarm` | src/main.cpp:216-218 | definition of `alarmGas`: any of the MQ-6, MQ-9, MQ-7 channels alarms; properties through `Alarm.ChannelThreshold` |
| `Alarm.Delta` | src/main.cpp:161 | definition of `delta`, the summed per-axis change; properties in `Alarm.DeltaIsDistance` and `Alarm.QuakeBandInCounts` |
| `Alarm.DeltaIsDistance` | src/main.cpp:161 | `delta` is never negative, and it is 0 exactly when the new snapshot equals the stored one |
| `Alarm.InQuakeBand` | src/main.cpp:164 | definition of the open band 0.5 < delta < 10.0; its count form in `Alarm.QuakeBandInCounts` |
| `Alarm.ChannelThreshold` | src/main.cpp:216-218 | a channel alarms when its line is LOW; with the line HIGH it alarms iff volts > baseline + 0.8, so a voltage equal to the threshold does not trigger |
| `Alarm.ChannelAlarmMonotone` | src/main.cpp:216-218 | a higher voltage or a line dropping LOW never clears a channel alarm |
| `Alarm.QuakeBandInCounts` | src/main.cpp:160-164 | the g-valued delta is the raw L1 count distance / 16384, and it lies in the open band (0.5, 10.0) iff 8192 < counts < 163840 |
| `Alarm.StillIsNotQuake` | src/main.cpp:161-164 | a repeated identical snapshot is never a quake |
| `Alarm.Cause` | src/main.cpp:228-230 | the banner names an active cause; fire wins over quake, and quake wins over gas |
| `Alarm.Decide` | src/main.cpp:223-274 | definition of the branch structure of one pass of `loop`; properties in the lemmas below, and `SafetyMonitor.Monitor.Respond` is proved equal to it |
| `Alarm.ScreenFollowsAlarm` | src/main.cpp:223-246 | the banner appears only in alarm, naming its top-priority cause; the calm screen appears only without alarm; a redraw happens iff elapsed > 200 ms (alarm) or > 500 ms (calm) |
| `Alarm.ReportFollowsAlarm` | src/main.cpp:236-272 | a send (a call of `sendDataToServer`) is attempted iff elapsed > 3000 ms in alarm, or (when calm) inside the 500 ms redraw with elapsed > 30000 ms; an alarm report carries the three causes, a calm report all flags false, both carry the MQ-6/MQ-7 volts and temperature |
| `Alarm.ReportsSpaced` | src/main.cpp:237-239 | after a report stamped at t, no pass sends within 3 s (30 s while calm), across the clock wrap |
| `Alarm.AlarmReportedAfterInterval` | src/main.cpp:237-239 | while the alarm holds, every pass more than 3 s after the last report sends an alarm report |
| `Alarm.RedrawsSpaced` | src/main.cpp:225-233 | after a redraw stamped at t, there is no redraw within 200 ms in alarm or 500 ms when calm |
| `Alarm.AlarmMonotone` | src/main.cpp:223 | raising fire, gas or quake never clears the alarm |
| `SafetyMonitor.ReadStableVoltage` | src/main.cpp:83-90 | consumes exactly ten reads and returns their mean scaled by 3.3/4095, which lies between the scaled smallest and largest read |
| `SafetyMonitor.Monitor.Setup` | src/main.cpp:183-188 | timers start at 0; the MPU handshake result is kept; one poll primes the stored snapshot; each baseline is its channel's calibrated mean |
| `SafetyMonitor.Monitor.CalibrateSensors` | src/main.cpp:98-117 | each baseline is the mean of exactly 50 reads of its own channel, scaled by 3.3/4095 |
| `SafetyMonitor.Monitor.CheckEarthquake` | src/main.cpp:148-165 | without an initialised MPU or a full read it returns false and keeps the snapshot; otherwise it stores the new snapshot and returns true iff 0.5 < delta < 10.0 (8192 < counts < 163840) |
| `SafetyMonitor.Monitor.CheckNetwork` | src/main.cpp:46-56 | acts and restamps only when unsigned elapsed time exceeds 10000 ms; asks for a reconnect then iff the link is down |
| `SafetyMonitor.Monitor.Sense` | src/main.cpp:208-220 | the readings of a pass are those `Observe` gives in the state before it; only the stored snapshot changes |
| `SafetyMonitor.Monitor.Respond` | src/main.cpp:223-274 | the decisions are `Decide`'s; `timerLCD` moves only on a redraw; `lastDataSent` moves after every send attempt, whatever its outcome |
| `SafetyMonitor.Monitor.Loop` | src/main.cpp:203-275 | one pass: network check, sensing, response; new timers and stored snapshot as above; baselines unchanged |
| `Mq136.Mapf` | src/main_basic.cpp:24-26 | `mapf` sends in_min to out_min and in_max to out_max (requires in_min ≠ in_max) |
| `Mq136.MapfAffine` | src/main_basic.cpp:24-26 | `mapf` is affine with slope (out_max − out_min)/(in_max − in_min) |
| `Mq136.Constrain` | src/main_basic.cpp:57 | `constrain` lies in [lo, hi], is the identity inside, and clamps below and above |
| `Mq136.GetSmoothedSensorValue` | src/main_basic.cpp:29-36 | consumes exactly `samples` reads (samples > 0) and returns their mean, between the smallest and largest read |
| `Mq136.SensorResistance` | src/main_basic.cpp:51-52 | RS is unbounded exactly at 0 V, otherwise never negative, and positive iff 0 < V < 3.3 V |
| `Mq136.RatioOf` | src/main_basic.cpp:55 | RS/R0 is finite for a finite RS and non-negative for a positive R0; an unbounded RS gives +∞ iff R0 > 0 |
| `Mq136.Percent` | src/main_basic.cpp:56-57 | the percentage is in [0, 100]; it is 0 iff ratio ≥ 1.0 and 100 iff ratio ≤ 0.3; +∞ reads 0 and −∞ reads 100 |
| `Mq136.MapOnScale` | src/main_basic.cpp:56 | the map from ratio 1.0→0 to 0.3→100 is (1 − ratio)·1000/7 |
| `Mq136.PercentAt` | src/main_basic.cpp:50-57 | the whole voltage → RS → ratio → percentage chain always lies in [0, 100] |
| `Mq136.PercentNonIncreasing` | src/main_basic.cpp:56-57 | the percentage is non-increasing in the ratio |
| `Mq136.PercentNonDecreasingInVoltage` | src/main_basic.cpp:50-57 | for a positive R0 and V > 0, the percentage is non-decreasing in the sensor voltage |
| `Mq136Basic.PollutionPercent` | src/main_basic.cpp:50-57 | the basic sketch's reading always lies in [0, 100] |
| `Mq136Basic.Loop` | src/main_basic.cpp:49-57 | one pass reads 25 samples and yields the percentage of their mean |
| `Mq136Basic.RatioNonNegative` | src/main_basic.cpp:55 | against R0 = 18000 the ratio is finite and non-negative for every non-zero count |
| `Mq136Basic.ScaleEndsInVolts` | src/main_basic.cpp:49-57 | 0 % iff V ≤ 33/46 V (RS ≥ R0), 100 % iff V ≥ 165/104 V (RS ≤ 0.3·R0); no signal reads 0 % |
| `Mq136Basic.NonDecreasingInCount` | src/main_basic.cpp:49-57 | a higher mean count never reads as cleaner air |
| `Mq136Pro.CompensatedR0` | src/main_pro.cpp:57-63 | without both temperature and humidity, R0 stays 18000 |
| `Mq136Pro.CompensationLinear` | src/main_pro.cpp:60 | the corrected R0 is 18000 at 20 °C / 65 %, and falls by 360 Ω per °C and 180 Ω per % humidity |
| `Mq136Pro.CompensatedR0PositiveInRange` | src/main_pro.cpp:60 | for 0–50 °C and any humidity in 0–100 % the corrected R0 is at least 900 Ω |
| `Mq136Pro.CompensationUnguarded` | src/main_pro.cpp:60 | the correction is unguarded: it is 0 at 70 °C / 65 % and negative above that |
| `Mq136Pro.PollutionPercent` | src/main_pro.cpp:65-72 | the pro reading lies in [0, 100] for any non-zero corrected R0 |
| `Mq136Pro.Loop` | src/main_pro.cpp:55-72 | one pass applies the correction, reads 25 samples and yields the percentage of their mean |
| `Mq136Pro.WithoutClimateMatchesBasic` | src/main_pro.cpp:57-63 | without a full climate reading, the pro sketch reads exactly what the basic one does |
| `Mq136Pro.NegativeR0Saturates` | src/main_pro.cpp:70-72 | with a negative corrected R0, every voltage in (0, 3.3) V reads 100 % |
| `Mq136Pro.NonDecreasingInCount` | src/main_pro.cpp:65-72 | with a positive corrected R0, a higher mean count never reads as cleaner air |

## Left out

- Wi-Fi and HTTP: `WiFi.begin/status/disconnect`, `HTTPClient` and the start-up wait loop are network I/O. A send attempt (a call of `sendDataToServer`) is the `report` field of a pass.
- Alarm.ReportFollowsAlarm: `sendDataToServer` skips the POST when the link is down at the moment of sending, and `lastDataSent` is restamped either way. The model records the attempt only; whether the POST went out is not tracked, because the link state at send time can differ from the one `checkNetwork` saw earlier in the pass. The link state is an input, and a reconnect request is an output of `CheckNetwork`.
- The JSON body: `snprintf` into a 150-byte buffer is float formatting. The model keeps only the flags and values that go into it.
- LCD and Serial text: the model keeps only which screen is drawn (banner with its cause, calm telemetry, or nothing). The progress dots of the calibration and the "Wi:ON/OFF" marker are left out.
- I2C transactions: the `initMPU` handshake result is a constructor parameter. A snapshot is an optional input, with `None` for a read of fewer than 6 bytes. `getMPUTemperature` is an input value.
- DHT11 readings are optional reals, with `None` for NaN.
- `delay` calls and pin setup have no logical effect.
- Float rounding: the 3.3/4095 scaling, `mapf` and the R0 correction are computed over `real`.
- SafetyMonitor.Monitor.Loop: every `millis()` call in one pass reads the same `now`. On the device the stamps are taken a little later than the tests, after the blocking LCD or HTTP work.
- Mq136Pro.PollutionPercent: requires a non-zero corrected R0, which the sketch does not guard (70 °C at 65 % humidity gives exactly 0). At exactly zero the float code yields NaN (for RS = 0) or an infinity whose sign depends on the sign of the zero. `CompensatedR0PositiveInRange` shows that this cannot happen over the DHT11's 0–50 °C range.
- Mq136Pro.Loop: requires a non-zero corrected R0 for the same reason as `Mq136Pro.PollutionPercent`. At 70 °C and 65 % humidity the sketch divides by zero, and with V ≥ 3.3 V its reading is NaN, which lies outside [0, 100]. The model does not cover that pass.
- Mq136.GetSmoothedSensorValue: requires samples > 0. With 0 samples the float code computes 0/0 (NaN). Both sketches pass 25.
- The ADC reads of a call are given as a sequence of exactly the number of reads the call takes. The 32-bit `long` accumulator is modelled as an unbounded integer; `Adc.SumFitsInLong` shows that 12-bit reads cannot overflow it.
