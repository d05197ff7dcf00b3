/**
 * The line follower's control core: the speed scaler that keeps both wheel
 * demands within the motor limit while keeping their ratio, and one tick of
 * the control loop, which stops the motors, skips, pivots toward the last
 * known side of the line, or steers with the PID correction.
 *
 * Motors are not modelled: a tick returns the command it would send.
 */
module Follower {
  import opened Wrappers
  import Pid
  import LightArray

  /** The line position below which a lost line is searched for by pivoting left (hard-coded, not the setpoint). */
  const RecoveryThreshold := 4.5

  /** What a tick sends to the two motors. */
  datatype MotorCommand =
    | Hold                             // no motor call: both keep their previous command
    | Stop                             // both motors stopped
    | Drive(left: real, right: real)   // `set_speed` on each motor

  /** The two scaled speeds and the scaling factor recorded for diagnostics. */
  datatype Scaled = Scaled(left: real, right: real, factor: real)

  /** What one loop iteration reads: the run button, the raw reading and the (separately read) position. */
  datatype TickInput = TickInput(enterPressed: bool, sensorData: Option<seq<LightArray.Byte>>, linePosition: Option<real>)

  function Abs(x: real): real { if x < 0.0 then -x else x }

  function Sign(x: real): int { if x > 0.0 then 1 else if x < 0.0 then -1 else 0 }

  /** The larger of the two wheel-speed magnitudes. */
  function Peak(left: real, right: real): real
  {
    Pid.Max(Abs(left), Abs(right))
  }

  /** The guard against rounding: limit `x` to `[-maxSpeed, maxSpeed]`. */
  function Saturate(x: real, maxSpeed: real): real
  {
    Pid.Max(-maxSpeed, Pid.Min(maxSpeed, x))
  }

  /** One wheel speed multiplied by the scaling factor. */
  function ScaleSpeed(speed: real, factor: real): real
  {
    speed * factor
  }

  /** Multiplying by a positive factor scales the magnitude by the same factor. */
  lemma AbsOfScaled(factor: real, x: real)
    requires factor > 0.0
    ensures Abs(ScaleSpeed(x, factor)) == factor * Abs(x)
  {
  }

  /** A value no larger in magnitude than `peak`, scaled by `maxSpeed / peak`, stays within `maxSpeed`. */
  lemma ScaledWithinLimit(x: real, factor: real, peak: real, maxSpeed: real)
    requires factor > 0.0 && factor * peak == maxSpeed && Abs(x) <= peak
    ensures -maxSpeed <= ScaleSpeed(x, factor) <= maxSpeed
  {
    AbsOfScaled(factor, x);
    assert factor * Abs(x) <= factor * peak;
  }

  /** Dividing by a positive number keeps a strict order. */
  lemma DivideMonotone(a: real, b: real, d: real)
    requires a < b && d > 0.0
    ensures a / d < b / d
  {
  }

  /** The factor `maxSpeed / peak` of a peak above the limit lies strictly between 0 and 1. */
  lemma FactorBounds(peak: real, maxSpeed: real)
    requires 0.0 < maxSpeed < peak
    ensures 0.0 < maxSpeed / peak < 1.0
    ensures maxSpeed / peak * peak == maxSpeed
  {
    DivideMonotone(maxSpeed, peak, peak);
    assert peak / peak == 1.0;
  }

  /** Scaling by a positive factor keeps the sign of each wheel and of their difference. */
  lemma ScalingKeepsSigns(left: real, right: real, factor: real)
    requires factor > 0.0
    ensures Sign(ScaleSpeed(left, factor)) == Sign(left) && Sign(ScaleSpeed(right, factor)) == Sign(right)
    ensures Sign(ScaleSpeed(left, factor) - ScaleSpeed(right, factor)) == Sign(left - right)
  {
    assert ScaleSpeed(left, factor) - ScaleSpeed(right, factor) == (left - right) * factor;
  }

  /** The peak of two scaled speeds is the scaled peak. */
  lemma PeakOfScaled(left: real, right: real, factor: real)
    requires factor > 0.0
    ensures Peak(ScaleSpeed(left, factor), ScaleSpeed(right, factor)) == factor * Peak(left, right)
  {
    AbsOfScaled(factor, left);
    AbsOfScaled(factor, right);
    if Abs(left) >= Abs(right) {
      assert factor * Abs(left) >= factor * Abs(right);
    } else {
      assert factor * Abs(left) < factor * Abs(right);
    }
  }

  /** What scaling down by `maxSpeed / peak` does to a pair whose peak is above the limit. */
  lemma ScaleDown(left: real, right: real, maxSpeed: real, factor: real)
    requires 0.0 < maxSpeed < Peak(left, right) && factor == maxSpeed / Peak(left, right)
    ensures 0.0 < factor < 1.0 && factor * Peak(left, right) == maxSpeed &&
      Saturate(ScaleSpeed(left, factor), maxSpeed) == ScaleSpeed(left, factor) &&
      Saturate(ScaleSpeed(right, factor), maxSpeed) == ScaleSpeed(right, factor) &&
      Peak(ScaleSpeed(left, factor), ScaleSpeed(right, factor)) == maxSpeed &&
      Sign(ScaleSpeed(left, factor)) == Sign(left) && Sign(ScaleSpeed(right, factor)) == Sign(right) &&
      Sign(ScaleSpeed(left, factor) - ScaleSpeed(right, factor)) == Sign(left - right)
  {
    var peak := Peak(left, right);
    FactorBounds(peak, maxSpeed);
    assert factor * peak == maxSpeed;
    ScaledWithinLimit(left, factor, peak, maxSpeed);
    ScaledWithinLimit(right, factor, peak, maxSpeed);
    ScalingKeepsSigns(left, right, factor);
    PeakOfScaled(left, right, factor);
  }

  /**
   * `scale_motor_speeds`: when the larger magnitude exceeds the limit, both
   * speeds are multiplied by `maxSpeed / peak`; otherwise the factor is 1.
   * Both results are then limited to `[-maxSpeed, maxSpeed]`.
   * `ScalePassesThrough`, `ScaleKeepsRatio` and `ScaleKeepsDirections` say
   * what the result is in each case.
   */
  function Scale(leftSpeed: real, rightSpeed: real, maxSpeed: real): (s: Scaled)
    requires maxSpeed > 0.0
    ensures -maxSpeed <= s.left <= maxSpeed && -maxSpeed <= s.right <= maxSpeed
  {
    var peak := Peak(leftSpeed, rightSpeed);
    if peak > maxSpeed then
      var factor := maxSpeed / peak;
      Scaled(Saturate(ScaleSpeed(leftSpeed, factor), maxSpeed), Saturate(ScaleSpeed(rightSpeed, factor), maxSpeed), factor)
    else
      Scaled(Saturate(leftSpeed, maxSpeed), Saturate(rightSpeed, maxSpeed), 1.0)
  }

  /** Speeds whose larger magnitude is within the limit pass through unchanged, with factor 1. */
  lemma ScalePassesThrough(leftSpeed: real, rightSpeed: real, maxSpeed: real)
    requires 0.0 < maxSpeed && Peak(leftSpeed, rightSpeed) <= maxSpeed
    ensures Scale(leftSpeed, rightSpeed, maxSpeed) == Scaled(leftSpeed, rightSpeed, 1.0)
  {
  }

  /**
   * Speeds whose larger magnitude exceeds the limit are both multiplied by
   * one factor in (0, 1), so their ratio is kept, and the larger one lands
   * exactly on the limit.
   */
  lemma ScaleKeepsRatio(leftSpeed: real, rightSpeed: real, maxSpeed: real)
    requires 0.0 < maxSpeed < Peak(leftSpeed, rightSpeed)
    ensures var s := Scale(leftSpeed, rightSpeed, maxSpeed);
      0.0 < s.factor < 1.0 && s.factor * Peak(leftSpeed, rightSpeed) == maxSpeed &&
      s.left == leftSpeed * s.factor && s.right == rightSpeed * s.factor &&
      Peak(s.left, s.right) == maxSpeed
  {
    var s := Scale(leftSpeed, rightSpeed, maxSpeed);
    var f := maxSpeed / Peak(leftSpeed, rightSpeed);
    ScaleDown(leftSpeed, rightSpeed, maxSpeed, f);
    assert s == Scaled(ScaleSpeed(leftSpeed, f), ScaleSpeed(rightSpeed, f), f);
  }

  /** Scaling keeps each wheel's direction and the sign of the difference between the wheels. */
  lemma ScaleKeepsDirections(leftSpeed: real, rightSpeed: real, maxSpeed: real)
    requires 0.0 < maxSpeed
    ensures var s := Scale(leftSpeed, rightSpeed, maxSpeed);
      Sign(s.left) == Sign(leftSpeed) && Sign(s.right) == Sign(rightSpeed) &&
      Sign(s.left - s.right) == Sign(leftSpeed - rightSpeed)
  {
    if Peak(leftSpeed, rightSpeed) > maxSpeed {
      ScaleDown(leftSpeed, rightSpeed, maxSpeed, maxSpeed / Peak(leftSpeed, rightSpeed));
    }
  }

  /** The two worked cases: (120, 60) becomes (100, 50); (40, -40) is left alone. */
  lemma ScaleExamples()
    ensures Scale(120.0, 60.0, 100.0) == Scaled(100.0, 50.0, 100.0 / 120.0)
    ensures Scale(40.0, -40.0, 100.0) == Scaled(40.0, -40.0, 1.0)
  {
    assert Peak(120.0, 60.0) == 120.0;
    assert Peak(40.0, -40.0) == 40.0;
  }

  /** A command respects the motor limit. */
  predicate WithinLimit(cmd: MotorCommand, maxSpeed: real)
  {
    cmd.Drive? ==> -maxSpeed <= cmd.left <= maxSpeed && -maxSpeed <= cmd.right <= maxSpeed
  }

  /** The part of the follower's state one loop iteration reads and writes, with the regulator's history. */
  datatype FollowerState = FollowerState(running: bool, last: Option<real>, factor: real, history: Pid.History)

  /** The command one tick sends, and the state it leaves. */
  datatype Decision = Decision(cmd: MotorCommand, next: FollowerState)

  /**
   * One iteration of the control loop, after the buttons, on an explicit
   * state: stop when not running; skip on invalid data; pivot toward the
   * side the line was last seen on when it is lost; otherwise steer with
   * the regulator's correction, scaled to the limit.
   */
  function TickStep(c: Pid.Config, baseSpeed: real, maxSpeed: real, s: FollowerState,
                    sensorData: Option<seq<LightArray.Byte>>, linePosition: Option<real>): (d: Decision)
    requires maxSpeed > 0.0
    ensures Abs(baseSpeed) <= maxSpeed ==> WithinLimit(d.cmd, maxSpeed)
    ensures d.next.running == s.running
    ensures sensorData.None? ==> !d.cmd.Drive?
    ensures !s.running ==> d.cmd == Stop
    ensures d.next.history != s.history ==> s.running && sensorData.Some? && linePosition.Some?
  {
    if !s.running then
      Decision(Stop, s.(last := linePosition))
    else if sensorData.None? then
      Decision(Hold, s)
    else if linePosition.None? then
      var cmd :=
        if s.last.None? then Hold
        else if s.last.value < RecoveryThreshold then Drive(baseSpeed, -baseSpeed)
        else Drive(-baseSpeed, baseSpeed);
      Decision(cmd, s)
    else
      var h := Pid.Step(c, s.history, linePosition.value);
      var scaled := Scale(baseSpeed + h.lastOutput, baseSpeed - h.lastOutput, maxSpeed);
      Decision(Drive(scaled.left, scaled.right), s.(last := linePosition, factor := scaled.factor, history := h))
  }

  /** The commands of a run of ticks and the state after it. */
  datatype Trace = Trace(cmds: seq<MotorCommand>, final: FollowerState)

  /**
   * The loop of `follow_line` over a finite run of ticks, from the end:
   * each tick first handles the run button, then runs `TickStep`.
   */
  function Run(c: Pid.Config, baseSpeed: real, maxSpeed: real, s: FollowerState, ticks: seq<TickInput>): (t: Trace)
    requires maxSpeed > 0.0
    ensures |t.cmds| == |ticks|
    ensures Abs(baseSpeed) <= maxSpeed ==> forall i :: 0 <= i < |ticks| ==> WithinLimit(t.cmds[i], maxSpeed)
    ensures forall i :: 0 <= i < |ticks| && ticks[i].sensorData.None? ==> !t.cmds[i].Drive?
    decreases |ticks|
  {
    if ticks == [] then Trace([], s)
    else
      var n := |ticks|;
      var before := Run(c, baseSpeed, maxSpeed, s, ticks[..n - 1]);
      var tick := ticks[n - 1];
      var toggled := before.final.(running := before.final.running != tick.enterPressed);
      var d := TickStep(c, baseSpeed, maxSpeed, toggled, tick.sensorData, tick.linePosition);
      Trace(before.cmds + [d.cmd], d.next)
  }

  /** The number of ticks on which the run button is pressed. */
  function Presses(ticks: seq<TickInput>): nat
    decreases |ticks|
  {
    if ticks == [] then 0
    else Presses(ticks[..|ticks| - 1]) + (if ticks[|ticks| - 1].enterPressed then 1 else 0)
  }

  /** Only the run button changes `running`: after a run it is flipped exactly when the button was pressed an odd number of times. */
  lemma {:induction false} RunningFollowsPresses(c: Pid.Config, baseSpeed: real, maxSpeed: real, s: FollowerState, ticks: seq<TickInput>)
    requires maxSpeed > 0.0
    ensures Run(c, baseSpeed, maxSpeed, s, ticks).final.running == (s.running != (Presses(ticks) % 2 == 1))
    decreases |ticks|
  {
    if ticks != [] {
      RunningFollowsPresses(c, baseSpeed, maxSpeed, s, ticks[..|ticks| - 1]);
    }
  }

  /** While the follower is stopped and the button is never pressed, every tick stops the motors and the regulator is untouched. */
  lemma {:induction false} IdleRunStops(c: Pid.Config, baseSpeed: real, maxSpeed: real, s: FollowerState, ticks: seq<TickInput>)
    requires maxSpeed > 0.0 && !s.running
    requires forall i :: 0 <= i < |ticks| ==> !ticks[i].enterPressed
    ensures var t := Run(c, baseSpeed, maxSpeed, s, ticks);
      (forall i :: 0 <= i < |ticks| ==> t.cmds[i] == Stop) && !t.final.running && t.final.history == s.history
    decreases |ticks|
  {
    if ticks != [] {
      var n := |ticks|;
      IdleRunStops(c, baseSpeed, maxSpeed, s, ticks[..n - 1]);
      var before := Run(c, baseSpeed, maxSpeed, s, ticks[..n - 1]);
      assert Run(c, baseSpeed, maxSpeed, s, ticks).cmds == before.cmds + [Stop];
    }
  }

  /** The controller of `line_follower.py`, without its buttons, display and sound. */
  class LineFollower {
    const baseSpeed: real := 10.0
    const maxSpeed: real := 100.0
    const pid: Pid.PidController
    var scalingFactor: real
    var running: bool
    /** The position seen on the last tick that was not skipped; `None` before the first. */
    var lastLinePosition: Option<real>

    /** The loop state together with the regulator's history. */
    function State(): FollowerState
      reads this, pid
    {
      FollowerState(running, lastLinePosition, scalingFactor, pid.Memory())
    }

    constructor ()
      ensures fresh(pid)
      ensures pid.Configuration() == Pid.Config(5.0, 0.0, 5.0, 4.5, Pid.Limits(Some(-maxSpeed), Some(maxSpeed)))
      ensures pid.Memory() == Pid.Cleared
      ensures scalingFactor == 1.0 && !running && lastLinePosition == None
    {
      scalingFactor := 1.0;
      pid := new Pid.PidController(5.0, 0.0, 5.0, 4.5, Pid.Limits(Some(-100.0), Some(100.0)));
      running := false;
      lastLinePosition := None;
    }

    /** `scale_motor_speeds`, which also records the factor it used. */
    method ScaleMotorSpeeds(leftSpeed: real, rightSpeed: real) returns (left: real, right: real)
      modifies this`scalingFactor
      ensures Scaled(left, right, scalingFactor) == Scale(leftSpeed, rightSpeed, maxSpeed)
    {
      var maxCurrentSpeed := Pid.Max(Abs(leftSpeed), Abs(rightSpeed));
      left, right := leftSpeed, rightSpeed;
      if maxCurrentSpeed > maxSpeed {
        scalingFactor := maxSpeed / maxCurrentSpeed;
        left := ScaleSpeed(left, scalingFactor);
        right := ScaleSpeed(right, scalingFactor);
      } else {
        scalingFactor := 1.0;
      }
      left := Pid.Max(-maxSpeed, Pid.Min(maxSpeed, left));
      right := Pid.Max(-maxSpeed, Pid.Min(maxSpeed, right));
    }

    /** The run/stop button: a press flips `running`. */
    method ToggleRunningState(enterPressed: bool)
      modifies this`running
      ensures running == (old(running) != enterPressed)
    {
      if enterPressed {
        running := !running;
      }
    }

    /** One iteration of the control loop after the buttons have been handled. */
    method Tick(sensorData: Option<seq<LightArray.Byte>>, linePosition: Option<real>) returns (cmd: MotorCommand)
      modifies this`scalingFactor, this`lastLinePosition, pid`integral, pid`previousError, pid`lastOutput
      ensures pid.Configuration() == old(pid.Configuration())
      ensures Decision(cmd, State()) == TickStep(pid.Configuration(), baseSpeed, maxSpeed, old(State()), sensorData, linePosition)
      ensures WithinLimit(cmd, maxSpeed)
      // stopped: brake whatever the input, and remember this tick's position, even `None`
      ensures !running ==>
        cmd == Stop && lastLinePosition == linePosition &&
        pid.Memory() == old(pid.Memory()) && scalingFactor == old(scalingFactor)
      // invalid data: skip the tick entirely
      ensures running && sensorData.None? ==>
        cmd == Hold && lastLinePosition == old(lastLinePosition) &&
        pid.Memory() == old(pid.Memory()) && scalingFactor == old(scalingFactor)
      // line lost: pivot toward the side it was last seen on, or do nothing if it never was
      ensures running && sensorData.Some? && linePosition.None? ==>
        lastLinePosition == old(lastLinePosition) &&
        pid.Memory() == old(pid.Memory()) && scalingFactor == old(scalingFactor) &&
        (old(lastLinePosition).None? ==> cmd == Hold) &&
        (old(lastLinePosition).Some? && old(lastLinePosition).value < RecoveryThreshold ==>
           cmd == Drive(baseSpeed, -baseSpeed)) &&
        (old(lastLinePosition).Some? && old(lastLinePosition).value >= RecoveryThreshold ==>
           cmd == Drive(-baseSpeed, baseSpeed))
      // line seen: steer by the PID correction, scaled to the limit
      ensures running && sensorData.Some? && linePosition.Some? ==>
        pid.Memory() == Pid.Step(pid.Configuration(), old(pid.Memory()), linePosition.value) &&
        var s := Scale(baseSpeed + pid.lastOutput, baseSpeed - pid.lastOutput, maxSpeed);
        cmd == Drive(s.left, s.right) && scalingFactor == s.factor &&
        Sign(cmd.left - cmd.right) == Sign(pid.lastOutput) &&
        lastLinePosition == linePosition
    {
      if running {
        if sensorData.None? {
          return Hold;
        }
        if linePosition.None? {
          cmd := Hold;
          if lastLinePosition.Some? {
            if lastLinePosition.value < RecoveryThreshold {
              cmd := Drive(baseSpeed, -baseSpeed);
            } else {
              cmd := Drive(-baseSpeed, baseSpeed);
            }
          }
          return;
        }
        var correction := pid.Compute(linePosition.value);
        var leftSpeed := baseSpeed + correction;
        var rightSpeed := baseSpeed - correction;
        ScaleKeepsDirections(leftSpeed, rightSpeed, maxSpeed);
        leftSpeed, rightSpeed := ScaleMotorSpeeds(leftSpeed, rightSpeed);
        cmd := Drive(leftSpeed, rightSpeed);
      } else {
        cmd := Stop;
      }
      lastLinePosition := linePosition;
    }

    /**
     * `follow_line` over a finite run of ticks: forget the last position,
     * then on each tick handle the run button and run the control step.
     * The commands and the final state are those of `Run`; in particular
     * every command respects the motor limit, a tick with invalid data never
     * drives the motors, and `running` ends flipped exactly when the button
     * was pressed an odd number of times.
     */
    method FollowLine(ticks: seq<TickInput>) returns (cmds: seq<MotorCommand>)
      modifies this`scalingFactor, this`lastLinePosition, this`running
      modifies pid`integral, pid`previousError, pid`lastOutput
      ensures |cmds| == |ticks|
      ensures forall i :: 0 <= i < |ticks| ==> WithinLimit(cmds[i], maxSpeed)
      ensures forall i :: 0 <= i < |ticks| && ticks[i].sensorData.None? ==> !cmds[i].Drive?
      ensures pid.Configuration() == old(pid.Configuration())
      ensures Trace(cmds, State()) == Run(pid.Configuration(), baseSpeed, maxSpeed, old(State()).(last := None), ticks)
      ensures running == (old(running) != (Presses(ticks) % 2 == 1))
    {
      lastLinePosition := None;
      ghost var start := State();
      cmds := [];
      var i := 0;
      while i < |ticks|
        invariant 0 <= i <= |ticks| && |cmds| == i
        invariant Trace(cmds, State()) == Run(pid.Configuration(), baseSpeed, maxSpeed, start, ticks[..i])
        invariant forall j :: 0 <= j < i ==> WithinLimit(cmds[j], maxSpeed)
        invariant forall j :: 0 <= j < i && ticks[j].sensorData.None? ==> !cmds[j].Drive?
        invariant pid.Configuration() == old(pid.Configuration())
      {
        ToggleRunningState(ticks[i].enterPressed);
        var cmd := Tick(ticks[i].sensorData, ticks[i].linePosition);
        cmds := cmds + [cmd];
        i := i + 1;
        assert ticks[..i][..i - 1] == ticks[..i - 1];
      }
      assert ticks[..i] == ticks;
      RunningFollowsPresses(pid.Configuration(), baseSpeed, maxSpeed, start, ticks);
    }
  }

  /**
   * One steering tick from a fresh controller on the reading
   * [10, 10, 10, 10, 90, 90, 90, 90], weighted as the raw values are: the
   * position is 6.1, the correction with the gains the follower builds is
   * -16, and a running tick on that reading and its position commands the
   * wheels (-6, 26).
   */
  lemma SkewedReadingSteersTowardLowIndices()
    ensures LightArray.LinePosition([10, 10, 10, 10, 90, 90, 90, 90]) == 6.1
    ensures Pid.Step(Pid.Config(5.0, 0.0, 5.0, 4.5, Pid.Limits(Some(-100.0), Some(100.0))), Pid.Cleared, 6.1).lastOutput == -16.0
    ensures Scale(10.0 + -16.0, 10.0 - -16.0, 100.0) == Scaled(-6.0, 26.0, 1.0)
    ensures TickStep(Pid.Config(5.0, 0.0, 5.0, 4.5, Pid.Limits(Some(-100.0), Some(100.0))), 10.0, 100.0,
                     FollowerState(true, None, 1.0, Pid.Cleared), Some([10, 10, 10, 10, 90, 90, 90, 90]),
                     Some(LightArray.LinePosition([10, 10, 10, 10, 90, 90, 90, 90]))).cmd
            == Drive(-6.0, 26.0)
  {
    assert [10][..0] == [];
    assert [10, 10][..1] == [10];
    assert [10, 10, 10][..2] == [10, 10];
    assert [10, 10, 10, 10][..3] == [10, 10, 10];
    assert [10, 10, 10, 10, 90][..4] == [10, 10, 10, 10];
    assert [10, 10, 10, 10, 90, 90][..5] == [10, 10, 10, 10, 90];
    assert [10, 10, 10, 10, 90, 90, 90][..6] == [10, 10, 10, 10, 90, 90];
    assert [10, 10, 10, 10, 90, 90, 90, 90][..7] == [10, 10, 10, 10, 90, 90, 90];
    assert Peak(-6.0, 26.0) == 26.0;
  }
}
