/** The calibrated proportional-derivative line follower.

    The hardware is abstracted: the wheel angles the loop reads (one reading
    per check of the loop condition, both motors having been reset to 0 just
    before) and the colour readings it takes (one per tick) are input
    sequences, and the commands sent to the motors and the drivebase form the
    output log. The calibration file is the `Store` of module Calibration. */
module LineFollower {
  import opened Reflectance
  import opened Calibration

  datatype Motor = LeftMotor | RightMotor

  /** What the controller tells the hardware. */
  datatype Command =
    | ResetAngle(motor: Motor, angle: real)
    | Drive(speed: real, turnRate: real)
    | Stop

  /** One reading of the two drive motors' angles, in degrees. */
  datatype WheelAngles = WheelAngles(left: real, right: real)

  datatype Outcome = Completed | NotCalibrated

  /** Both wheel angles are reset to 0 on entry. */
  function Resets(): seq<Command> {
    [ResetAngle(LeftMotor, 0.0), ResetAngle(RightMotor, 0.0)]
  }

  /** The threshold the robot follows: halfway between the calibrated black
      and white readings. */
  function Midpoint(rec: Record): (m: real)
    ensures m - rec.black == rec.white - m
    ensures rec.black <= rec.white ==> rec.black <= m <= rec.white
  {
    (rec.black + rec.white) / 2.0
  }

  /** The distance travelled, in degrees of wheel rotation: the mean of the
      two wheel angles. */
  function Travelled(a: WheelAngles): real {
    (a.left + a.right) / 2.0
  }

  /** The distance to travel: 360 degrees per requested rotation. */
  function Target(rotations: real): real {
    360.0 * rotations
  }

  /** Some angle reading reaches the target. Without one the source loops
      forever. */
  ghost predicate Reaches(angles: seq<WheelAngles>, target: real) {
    exists k :: 0 <= k < |angles| && Travelled(angles[k]) >= target
  }

  /** The index of the first angle reading at or past the target, which is
      also the number of ticks the loop runs. */
  function FirstAtTarget(angles: seq<WheelAngles>, target: real): (k: nat)
    requires Reaches(angles, target)
    ensures k < |angles| && Travelled(angles[k]) >= target
    ensures forall j :: 0 <= j < k ==> Travelled(angles[j]) < target
  {
    if Travelled(angles[0]) >= target then 0
    else
      assert Reaches(angles[1..], target) by {
        var k :| 0 <= k < |angles| && Travelled(angles[k]) >= target;
        assert angles[1..][k - 1] == angles[k];
      }
      1 + FirstAtTarget(angles[1..], target)
  }

  /** The signed error of each sample from the threshold. */
  function Deviations(samples: seq<Rgb>, middle: real): seq<real> {
    seq(|samples|, i requires 0 <= i < |samples| => Sample(samples[i]) - middle)
  }

  /** One tick's steering: a proportional term plus a derivative term against
      the remembered deviation. When the deviation has not changed, only the
      proportional term remains. */
  function TurnRate(kp: real, kd: real, deviation: real, lastDeviation: real): (r: real)
    ensures deviation == lastDeviation ==> r == kp * deviation
  {
    var proportional := kp * deviation;
    var derivative := (deviation - lastDeviation) * kd;
    proportional + derivative
  }

  /** The standard variant's remembered deviation before tick `i` (0-based):
      the previous tick's, or 0 before the first tick. */
  function StandardLast(d: seq<real>, i: nat): real
    requires i <= |d|
  {
    if i == 0 then 0.0 else d[i - 1]
  }

  /** The secondary variant's counter step: add one, wrapping 5 to 0. */
  function ControlStep(c: nat): nat {
    if c + 1 == 5 then 0 else c + 1
  }

  /** The secondary variant's counter after `t` ticks. It never leaves 0..4. */
  function Control(t: nat): (c: nat)
    ensures c < 5
  {
    if t == 0 then 0 else ControlStep(Control(t - 1))
  }

  /** The secondary variant's remembered deviation before tick `i` (0-based):
      refreshed only on the ticks after which the counter is 4. */
  function SecondaryLast(d: seq<real>, i: nat): real
    requires i <= |d|
  {
    if i == 0 then 0.0
    else if Control(i) == 4 then d[i - 1]
    else SecondaryLast(d, i - 1)
  }

  /** The standard variant's turn rate on each tick. */
  function StandardTurnRates(kp: real, kd: real, d: seq<real>): seq<real> {
    seq(|d|, i requires 0 <= i < |d| => TurnRate(kp, kd, d[i], StandardLast(d, i)))
  }

  /** The secondary variant's turn rate on each tick. */
  function SecondaryTurnRates(kp: real, kd: real, d: seq<real>): seq<real> {
    seq(|d|, i requires 0 <= i < |d| => TurnRate(kp, kd, d[i], SecondaryLast(d, i)))
  }

  /** One drive command per tick, all at the same forward speed. */
  function Drives(speed: real, rates: seq<real>): seq<Command> {
    seq(|rates|, i requires 0 <= i < |rates| => Drive(speed, rates[i]))
  }

  /** The whole log of a calibrated run. */
  function Run(speed: real, rates: seq<real>): seq<Command> {
    Resets() + Drives(speed, rates) + [Stop]
  }

  /** One element of the deviations of the first `n` samples. */
  lemma DeviationAt(samples: seq<Rgb>, n: nat, middle: real, i: nat)
    requires i < n <= |samples|
    ensures |Deviations(samples[..n], middle)| == n
    ensures Deviations(samples[..n], middle)[i] == Sample(samples[i]) - middle
  {
  }

  /** One element of the standard variant's turn rates. */
  lemma StandardRateAt(kp: real, kd: real, d: seq<real>, i: nat)
    requires i < |d|
    ensures |StandardTurnRates(kp, kd, d)| == |d|
    ensures StandardTurnRates(kp, kd, d)[i] == TurnRate(kp, kd, d[i], StandardLast(d, i))
  {
  }

  /** One element of the secondary variant's turn rates. */
  lemma SecondaryRateAt(kp: real, kd: real, d: seq<real>, i: nat)
    requires i < |d|
    ensures |SecondaryTurnRates(kp, kd, d)| == |d|
    ensures SecondaryTurnRates(kp, kd, d)[i] == TurnRate(kp, kd, d[i], SecondaryLast(d, i))
  {
  }

  /** One tick of the secondary variant's counter and remembered deviation. */
  lemma SecondaryStep(d: seq<real>, t: nat, control: int, last: real)
    requires t < |d| && control == Control(t) && last == SecondaryLast(d, t)
    ensures var next := if control + 1 == 5 then 0 else control + 1;
            next == Control(t + 1) &&
            SecondaryLast(d, t + 1) == if next == 4 then d[t] else last
  {
  }

  /** Appending one tick's drive command to a partial log. */
  lemma LogExtend(log: seq<Command>, speed: real, rates: seq<real>, t: nat)
    requires t < |rates|
    requires log == Resets() + Drives(speed, rates[..t])
    ensures log + [Drive(speed, rates[t])] == Resets() + Drives(speed, rates[..t + 1])
  {
    assert Drives(speed, rates[..t + 1]) == Drives(speed, rates[..t]) + [Drive(speed, rates[t])];
  }

  /** Closing a log that holds every tick's drive command with the stop. */
  lemma LogComplete(log: seq<Command>, speed: real, rates: seq<real>)
    requires log == Resets() + Drives(speed, rates[..|rates|])
    ensures log + [Stop] == Run(speed, rates)
  {
    assert rates[..|rates|] == rates;
  }

  /** `line_follow`: follows the line with the primary sensor, updating the
      remembered deviation on every tick. */
  method LineFollow(store: Store, rotations: real, speed: real, kp: real, kd: real,
                    angles: seq<WheelAngles>, samples: seq<Rgb>)
    returns (outcome: Outcome, log: seq<Command>)
    requires Primary in store ==>
      Reaches(angles, Target(rotations)) && FirstAtTarget(angles, Target(rotations)) <= |samples|
    ensures Primary !in store ==> outcome == NotCalibrated && log == Resets()
    ensures Primary in store ==>
              outcome == Completed &&
              log == Run(speed, StandardTurnRates(kp, kd,
                Deviations(samples[..FirstAtTarget(angles, Target(rotations))], Midpoint(store[Primary]))))
  {
    log := Resets();
    var loaded := Load(store, Primary);
    if loaded.None? {
      return NotCalibrated, log;
    }
    var middle := Midpoint(loaded.value);
    ghost var n := FirstAtTarget(angles, Target(rotations));
    ghost var d := Deviations(samples[..n], middle);
    ghost var rates := StandardTurnRates(kp, kd, d);
    var lastDeviation := 0.0;
    var tick: nat := 0;
    while Travelled(angles[tick]) < Target(rotations)
      invariant tick <= n
      invariant lastDeviation == StandardLast(d, tick)
      invariant log == Resets() + Drives(speed, rates[..tick])
      decreases n - tick
    {
      assert tick < n;
      var deviation := Sample(samples[tick]) - middle;
      var turnRate := TurnRate(kp, kd, deviation, lastDeviation);
      DeviationAt(samples, n, middle, tick);
      assert deviation == d[tick];
      StandardRateAt(kp, kd, d, tick);
      assert turnRate == rates[tick];
      lastDeviation := deviation;
      LogExtend(log, speed, rates, tick);
      log := log + [Drive(speed, turnRate)];
      tick := tick + 1;
    }
    LogComplete(log, speed, rates);
    log := log + [Stop];
    outcome := Completed;
  }

  /** `secondary_line_follow`: the same loop on the secondary sensor, except
      that a counter modulo 5 lets the remembered deviation change only on
      ticks after which the counter is 4. */
  method SecondaryLineFollow(store: Store, rotations: real, speed: real, kp: real, kd: real,
                             angles: seq<WheelAngles>, samples: seq<Rgb>)
    returns (outcome: Outcome, log: seq<Command>)
    requires Secondary in store ==>
      Reaches(angles, Target(rotations)) && FirstAtTarget(angles, Target(rotations)) <= |samples|
    ensures Secondary !in store ==> outcome == NotCalibrated && log == Resets()
    ensures Secondary in store ==>
              outcome == Completed &&
              log == Run(speed, SecondaryTurnRates(kp, kd,
                Deviations(samples[..FirstAtTarget(angles, Target(rotations))], Midpoint(store[Secondary]))))
  {
    var control := 0;
    log := Resets();
    var loaded := Load(store, Secondary);
    if loaded.None? {
      return NotCalibrated, log;
    }
    var middle := Midpoint(loaded.value);
    ghost var n := FirstAtTarget(angles, Target(rotations));
    ghost var d := Deviations(samples[..n], middle);
    ghost var rates := SecondaryTurnRates(kp, kd, d);
    var lastDeviation := 0.0;
    var tick: nat := 0;
    while Travelled(angles[tick]) < Target(rotations)
      invariant tick <= n
      invariant control == Control(tick)
      invariant lastDeviation == SecondaryLast(d, tick)
      invariant log == Resets() + Drives(speed, rates[..tick])
      decreases n - tick
    {
      assert tick < n;
      var deviation := Sample(samples[tick]) - middle;
      var turnRate := TurnRate(kp, kd, deviation, lastDeviation);
      DeviationAt(samples, n, middle, tick);
      assert deviation == d[tick];
      SecondaryRateAt(kp, kd, d, tick);
      assert turnRate == rates[tick];
      SecondaryStep(d, tick, control, lastDeviation);
      control := control + 1;
      if control == 5 {
        control := 0;
      }
      if control == 4 {
        lastDeviation := deviation;
      }
      LogExtend(log, speed, rates, tick);
      log := log + [Drive(speed, turnRate)];
      tick := tick + 1;
    }
    LogComplete(log, speed, rates);
    log := log + [Stop];
    outcome := Completed;
  }

  /** The secondary counter after `t` ticks is `t` modulo 5. */
  lemma {:induction false} ControlCountsModFive(t: nat)
    ensures Control(t) == t % 5
  {
    if t > 0 {
      ControlCountsModFive(t - 1);
    }
  }

  /** The secondary variant's remembered deviation changes only after the
      ticks numbered 4, 9, 14, ... (counting from 1), where it becomes that
      tick's deviation; after every other tick it is kept. */
  lemma SecondaryRefreshTicks(d: seq<real>, t: nat)
    requires 0 < t <= |d|
    ensures t % 5 == 4 ==> SecondaryLast(d, t) == d[t - 1]
    ensures t % 5 != 4 ==> SecondaryLast(d, t) == SecondaryLast(d, t - 1)
  {
    ControlCountsModFive(t);
  }

  /** Closed form of the secondary variant's remembered deviation before tick
      `i` (0-based): 0 during the first four ticks, and afterwards the
      deviation of the latest tick `j` with `j % 5 == 3`, which lies one to
      five ticks back. */
  lemma {:induction false} SecondaryLastClosedForm(d: seq<real>, i: nat)
    requires i <= |d|
    ensures i < 4 ==> SecondaryLast(d, i) == 0.0
    ensures i >= 4 ==>
              var j := i - 1 - (i - 4) % 5;
              i - 5 <= j < i && j % 5 == 3 && SecondaryLast(d, i) == d[j]
  {
    if i > 0 {
      SecondaryRefreshTicks(d, i);
      if i % 5 != 4 {
        SecondaryLastClosedForm(d, i - 1);
      }
    }
  }

  /** The standard variant's derivative always uses the immediately
      preceding tick, with 0 before the first tick. */
  lemma StandardUsesPreviousTick(kp: real, kd: real, d: seq<real>, i: nat)
    requires i < |d|
    ensures i == 0 ==> StandardTurnRates(kp, kd, d)[i] == kp * d[0] + kd * d[0]
    ensures i > 0 ==> StandardTurnRates(kp, kd, d)[i] == kp * d[i] + kd * (d[i] - d[i - 1])
  {
  }

  /** A first sample exactly on the threshold gives no steering on the first
      tick, in both variants. */
  lemma FirstTickOnMidpointGoesStraight(rec: Record, samples: seq<Rgb>, kp: real, kd: real)
    requires |samples| > 0 && Sample(samples[0]) == Midpoint(rec)
    ensures StandardTurnRates(kp, kd, Deviations(samples, Midpoint(rec)))[0] == 0.0
    ensures SecondaryTurnRates(kp, kd, Deviations(samples, Midpoint(rec)))[0] == 0.0
  {
  }

  /** While every sample is on the threshold, neither variant ever steers. */
  lemma {:induction false} OnTheLineGoesStraight(kp: real, kd: real, d: seq<real>)
    requires forall i :: 0 <= i < |d| ==> d[i] == 0.0
    ensures forall i :: 0 <= i < |d| ==> StandardTurnRates(kp, kd, d)[i] == 0.0
    ensures forall i :: 0 <= i < |d| ==> SecondaryTurnRates(kp, kd, d)[i] == 0.0
  {
    forall i | 0 <= i < |d|
      ensures SecondaryTurnRates(kp, kd, d)[i] == 0.0
    {
      SecondaryLastClosedForm(d, i);
    }
  }

  /** A calibrated run's log: the two angle resets, one drive command per
      tick at the unchanged forward speed, and a single stop at the end. */
  lemma RunShape(speed: real, rates: seq<real>)
    ensures |Run(speed, rates)| == |rates| + 3
    ensures Run(speed, rates)[..2] == Resets()
    ensures forall i :: 0 <= i < |rates| ==> Run(speed, rates)[i + 2] == Drive(speed, rates[i])
    ensures Run(speed, rates)[|rates| + 2] == Stop
    ensures forall i :: 0 <= i < |rates| + 2 ==> Run(speed, rates)[i] != Stop
  {
  }

  /** With the wheels at the reset angle when the loop condition is first
      checked, the loop runs no tick exactly when at most zero rotations are
      asked for. */
  lemma NoRotationNoDrive(angles: seq<WheelAngles>, rotations: real)
    requires |angles| > 0 && angles[0] == WheelAngles(0.0, 0.0)
    ensures rotations <= 0.0 ==> Reaches(angles, Target(rotations)) && FirstAtTarget(angles, Target(rotations)) == 0
    ensures rotations > 0.0 && Reaches(angles, Target(rotations)) ==> FirstAtTarget(angles, Target(rotations)) > 0
  {
    if rotations <= 0.0 {
      assert Travelled(angles[0]) >= Target(rotations);
    }
  }

  /** The calibration `{black: 20, white: 80}` with every sample reading 50,
      which is that record's threshold, and forward speed 175: every drive
      command of either variant is `Drive(175, 0)`. */
  lemma StraightRunScenario(samples: seq<Rgb>, kp: real, kd: real)
    requires forall i :: 0 <= i < |samples| ==> Sample(samples[i]) == 50.0
    ensures Midpoint(Record(20.0, 80.0)) == 50.0
    ensures forall i :: 0 <= i < |samples| ==>
              Drives(175.0, StandardTurnRates(kp, kd, Deviations(samples, Midpoint(Record(20.0, 80.0)))))[i]
              == Drive(175.0, 0.0)
    ensures forall i :: 0 <= i < |samples| ==>
              Drives(175.0, SecondaryTurnRates(kp, kd, Deviations(samples, Midpoint(Record(20.0, 80.0)))))[i]
              == Drive(175.0, 0.0)
  {
    OnTheLineGoesStraight(kp, kd, Deviations(samples, Midpoint(Record(20.0, 80.0))));
  }

  /** After the calibration procedure, each controller's threshold is the
      mean of the black and white samples taken for its own sensor. */
  lemma ThresholdAfterCalibration(store: Store, rightBlack: Rgb, rightWhite: Rgb, leftBlack: Rgb, leftWhite: Rgb)
    ensures var s := Calibrated(store, rightBlack, rightWhite, leftBlack, leftWhite);
            Primary in s && Secondary in s &&
            Midpoint(s[Primary]) == (Sample(rightBlack) + Sample(rightWhite)) / 2.0 &&
            Midpoint(s[Secondary]) == (Sample(leftBlack) + Sample(leftWhite)) / 2.0
  {
    CalibratedRecords(store, rightBlack, rightWhite, leftBlack, leftWhite);
  }
}
