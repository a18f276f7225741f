# Calibrated PD line follower of a competition robot

This project models the calibrated line follower in the robot's `main.py`.
It has four parts:

- **Reflectance sampling.** A colour sensor reports red, green and blue
  intensities. One reflectance sample is their arithmetic mean.
- **Calibration.** Each light sensor has its own `{black, white}` record in
  its own file: `light.json` for the primary (right) sensor and
  `secondary_light.json` for the secondary (left) sensor. The black step
  builds `{black: sample, white: 100}` in memory and writes it out. The white
  step overwrites `white` in that in-memory record and writes the whole record
  out again.
- **`line_follow`.** This is a proportional-derivative (PD) controller on the
  primary sensor. It resets both wheel angles to 0 and loads the record. The
  threshold is `(black + white) / 2`. While the mean wheel angle is below
  `360 * rotations`, each tick computes
  `turn_rate = kp * deviation + (deviation - last_deviation) * kd`, sets
  `last_deviation` to this tick's deviation and then sends
  `drive(speed, turn_rate)`. At the end it sends `stop()`.
- **`secondary_line_follow`.** This is the same loop on the secondary sensor.
  A counter runs modulo 5, and `last_deviation` is refreshed only on ticks
  after which the counter is 4.

The hardware is abstracted away:

- The angle readings taken at each check of the loop condition are an input
  sequence.
- The colour readings taken at each tick are another input sequence.
- Every command to the motors and the drivebase goes into an output log:
  `ResetAngle`, `Drive` and `Stop`.
- The files are an abstract map from sensor to record. A sensor with no entry
  in the map has never been calibrated.
- Arithmetic uses Dafny's `real`.

Modules:

- `Reflectance` in `reflectance.dfy`: the sample.
- `Calibration` in `calibration.dfy`: the record, the store and the
  calibration procedure. `Calibrator` is a class whose `pending` field stands
  for the in-memory dictionaries and whose `store` field stands for the files.
- `LineFollower` in `line_follower.dfy`: the two controller methods, the
  functions that specify them and the lemmas about those functions.

Points of `main.py`'s behaviour worth noting:

- **Failure when not calibrated.** `main.py` resets both wheel angles before
  it opens the calibration file. A run without a record therefore logs the
  two resets and nothing else: no drive and no stop.
- **How stale the secondary derivative is.** For the first four ticks the
  secondary derivative is taken against 0, so the derivative term is
  `deviation * kd`. After that it is taken against the deviation of the
  latest tick numbered 4, 9, 14, … (counting ticks from 1). That tick is one to five ticks back,
  depending on the current tick.
- **No wait.** The loop waits for nothing between ticks.

## Model

| member | source | states |
|---|---|---|
| `Reflectance.Sample` | main.py:26-33 | definition: the mean of the three channels, with true division |
| `Reflectance.SampleIsChannelMean` | main.py:26-33 | three times a sample is the channel total, so the sample is the mean `(r+g+b)/3`; it lies between the darkest and the brightest channel |
| `Reflectance.SampleInPercentRange` | main.py:26-28 | channels in 0..100 give a sample in 0..100; equal channels give that common value |
| `Calibration.BlackRecord` | main.py:80-83 | definition: the record `{black: sample, white: 100}` |
| `Calibration.WithWhite` | main.py:98 | definition: the record with `white` replaced |
| `Calibration.Save` | main.py:84-86 | definition: the store with one sensor's whole record replaced |
| `Calibration.Load` | main.py:146-147 | definition: the stored record, or nothing for an uncalibrated sensor |
| `Calibration.Calibrated` | main.py:78-137 | definition: the store after black and white on the primary sensor, then black and white on the secondary sensor |
| `Calibration.BlackThenWhite` | main.py:80-101 | the black step followed by the white step stores exactly `{black: black sample, white: white sample}` |
| `Calibration.LastWriteWins` | main.py:85-86 | of two writes to one sensor's file, only the second one is visible |
| `Calibration.SensorsIndependent` | main.py:85-134 | writing one sensor's file leaves the other sensor's record unchanged, and writes to the two files commute |
| `Calibration.CalibratedRecords` | main.py:72-137 | after the whole procedure, each sensor holds its own black and white samples, whatever was stored before |
| `Calibration.Calibrator.constructor` | main.py:72-78 | a session starts with no in-memory record and with the files as earlier runs left them |
| `Calibration.Calibrator.BlackStep` | main.py:80-86 | the in-memory record becomes `{black: sample, white: 100}` and the file holds that record; the file mirrors the in-memory record |
| `Calibration.Calibrator.WhiteStep` | main.py:98-101 | only `white` of the in-memory record changes; the file is rewritten with the whole record, so it holds the earlier black and the new white |
| `Calibration.Calibrate` | main.py:72-137 | the four steps in order leave the store equal to `Calibrated` of the old store, and leave each sensor's in-memory record equal to `{black: its black sample, white: its white sample}` |
| `LineFollower.Resets` | main.py:144-145 | definition: both wheel angles reset to 0 |
| `LineFollower.Deviations` | main.py:152 | definition: each sample minus the threshold |
| `LineFollower.StandardLast` | main.py:156 | definition: the remembered deviation is the previous tick's, and 0 before the first tick |
| `LineFollower.SecondaryLast` | main.py:176-180 | definition: the remembered deviation is refreshed only after ticks that leave the counter at 4 |
| `LineFollower.Travelled` | main.py:151 | definition: the mean of the two wheel angles, the left side of the loop condition |
| `LineFollower.Target` | main.py:151 | definition: `360 * rotations`, the right side of the loop condition |
| `LineFollower.ControlStep` | main.py:176-178 | definition: the counter plus one, with 5 wrapped to 0 |
| `LineFollower.StandardTurnRates` | main.py:152-156 | definition: tick `i`'s turn rate from deviation `d[i]` against the previous tick's deviation |
| `LineFollower.SecondaryTurnRates` | main.py:172-180 | definition: tick `i`'s turn rate from deviation `d[i]` against the secondary variant's remembered deviation |
| `LineFollower.Drives` | main.py:157 | definition: one `Drive(speed, rate)` per tick, in tick order (main.py:181 in the secondary variant) |
| `LineFollower.Run` | main.py:144-158 | definition: the two resets, the drives, then one stop |
| `LineFollower.Midpoint` | main.py:148 | the threshold is equidistant from `black` and `white`, and it lies between them when `black <= white` |
| `LineFollower.FirstAtTarget` | main.py:151 | the number of ticks is the index of the first angle reading whose mean reaches `360*rotations`; every earlier reading is below it |
| `LineFollower.TurnRate` | main.py:152-155 | the steering command is `kp*deviation + (deviation - last_deviation)*kd`; when the deviation is unchanged only the proportional term remains |
| `LineFollower.Control` | main.py:176-178 | the secondary counter never leaves 0..4 |
| `LineFollower.LineFollow` | main.py:141-158 | without a primary record, only the two angle resets are logged. Otherwise the log is the resets, one `Drive(speed, rate)` per tick while the mean angle is below target, and one `Stop`. Each rate uses the previous tick's deviation, starting from 0 |
| `LineFollower.SecondaryLineFollow` | main.py:161-182 | the same as `LineFollow` for the secondary sensor and its record, except that the remembered deviation is refreshed only on ticks after which the counter is 4 |
| `LineFollower.ControlCountsModFive` | main.py:176-178 | after `t` ticks the secondary counter equals `t % 5` |
| `LineFollower.SecondaryRefreshTicks` | main.py:176-180 | the remembered deviation becomes the current tick's deviation exactly on ticks `t` with `t % 5 == 4`; on all other ticks it keeps its value |
| `LineFollower.SecondaryLastClosedForm` | main.py:174-180 | before tick `i` the secondary derivative uses 0 if `i < 4`; otherwise it uses the deviation of the latest tick `j` with `j % 5 == 3` (0-based), which is one to five ticks back |
| `LineFollower.StandardUsesPreviousTick` | main.py:152-156 | the standard rates are `kp*d[i] + kd*(d[i] - d[i-1])`, with `d[-1] = 0` |
| `LineFollower.FirstTickOnMidpointGoesStraight` | main.py:143-155 | a first sample equal to the threshold gives turn rate 0 on the first tick, in both variants |
| `LineFollower.OnTheLineGoesStraight` | main.py:152-180 | when every deviation is 0, every turn rate of both variants is 0 |
| `LineFollower.RunShape` | main.py:144-158 | a calibrated run logs the two resets to 0, then one drive per tick at the unchanged speed, then exactly one stop, at the end |
| `LineFollower.NoRotationNoDrive` | main.py:144-151 | with the first angle reading at the reset value, the loop runs zero ticks exactly when `rotations <= 0` |
| `LineFollower.StraightRunScenario` | main.py:148-157 | with record `{black: 20, white: 80}`, whose threshold is 50, and every sample reading 50 (any channels whose mean is 50), every drive of either variant is `Drive(175, 0)` |
| `LineFollower.ThresholdAfterCalibration` | main.py:146-148 | after calibration, each controller's threshold is the mean of its own sensor's black and white samples |

## Left out

- Mission choreography under each button (main.py:197-450): these are fixed
  motion sequences with no decisions, so they are outside the line-follower
  core.
- The menu, button polling, screen text and speech setup (main.py:20,
  main.py:55-70, main.py:184-195): this is user interface and hardware I/O.
- The choice of whether to calibrate at all (main.py:61-72): the model
  starts at the procedure itself. Waiting for the centre button and the
  `wait(275)` pauses inside each step are not modelled either.
- The warm-up readings at main.py:37-38: they only switch on the sensor's
  lamps, and their values are discarded.
- Device calls (`rgb`, `angle`, `reset_angle`, `drive`, `stop`): readings are
  input sequences and commands are an output log. How driving changes the
  wheel angles is physics, not code.
- JSON text and file access: the files are a map from sensor to record. A
  malformed or unreadable file is not modelled. A missing file is the
  `NotCalibrated` outcome, which main.py reports by raising an uncaught error.
- Float rounding: all arithmetic is on `real`. The placeholder white value
  `100` is the Python integer 100 and becomes `100.0`.
- LineFollower.LineFollow: when the wheel angles never reach the target, the
  source loops forever. The model requires a reading that reaches the target
  when the sensor is calibrated, so this non-termination is not modelled.
- LineFollower.SecondaryLineFollow: the same assumption as `LineFollow`.
- LineFollower.NoRotationNoDrive: it assumes that the first angle reading
  after the reset is 0 on both wheels. The source reads the motors, which may
  still be moving.
- `line_follow` also sets `control = 0` (main.py:142), but it never uses it,
  so the model leaves it out.
- There is no check that `white > black`, because the source has none.
- Channel readings are unbounded integers. The 0..100 range is used only as
  a hypothesis of `SampleInPercentRange`.
