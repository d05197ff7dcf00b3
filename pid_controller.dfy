/**
 * The PID regulator: a proportional, integral and derivative term over the
 * error `setpoint - value`, with an unbounded integral accumulator and an
 * optional clamp on the final output.
 *
 * `Step` is the specification of one `compute` call on an explicit
 * configuration and history; `Outputs` and `Final` run it over a sequence
 * of measurements. The class `PidController` holds the same state in fields
 * and its methods are proved against `Step`.
 */
module Pid {
  import opened Wrappers

  /** The `output_limits` pair; either bound may be absent. */
  datatype Limits = Limits(min: Option<real>, max: Option<real>)

  const Unlimited := Limits(None, None)

  /** Gains, setpoint and output limits: everything `compute` reads but never writes. */
  datatype Config = Config(kp: real, ki: real, kd: real, setpoint: real, limits: Limits)

  /** What `compute` remembers between calls. */
  datatype History = History(integral: real, previousError: real, lastOutput: real)

  /** The history of a freshly constructed or reset controller. */
  const Cleared := History(0.0, 0.0, 0.0)

  function Max(a: real, b: real): real { if a >= b then a else b }
  function Min(a: real, b: real): real { if a <= b then a else b }

  /** The limits are consistent when the lower bound does not exceed the upper one. */
  predicate Ordered(limits: Limits)
  {
    limits.min.None? || limits.max.None? || limits.min.value <= limits.max.value
  }

  /** `x` lies between whichever bounds are present. */
  predicate Within(x: real, limits: Limits)
  {
    (limits.min.None? || limits.min.value <= x) && (limits.max.None? || x <= limits.max.value)
  }

  /**
   * The output clamp: first raise to the lower bound, then lower to the upper
   * bound. When the bounds are crossed, the upper bound wins.
   */
  function Clamp(x: real, limits: Limits): (r: real)
    ensures limits.max.Some? ==> r <= limits.max.value
    ensures limits.min.Some? && Ordered(limits) ==> limits.min.value <= r
    ensures Within(x, limits) ==> r == x
    ensures limits.min.Some? && x < limits.min.value && Ordered(limits) ==> r == limits.min.value
    ensures limits.max.Some? && limits.max.value < x ==> r == limits.max.value
    ensures !Ordered(limits) ==> r == limits.max.value
  {
    var raised := if limits.min.Some? then Max(limits.min.value, x) else x;
    if limits.max.Some? then Min(limits.max.value, raised) else raised
  }

  /** The error `compute` works on. */
  function Error(c: Config, value: real): real
  {
    c.setpoint - value
  }

  /** The sum of the three terms, before the output clamp. */
  function Unclamped(c: Config, h: History, value: real): real
  {
    var e := Error(c, value);
    c.kp * e + c.ki * (h.integral + e) + c.kd * (e - h.previousError)
  }

  /**
   * One `compute` call: the new history, whose `lastOutput` is the value
   * returned.
   */
  function Step(c: Config, h: History, value: real): (h': History)
    ensures h'.previousError == Error(c, value)
    ensures h'.integral == h.integral + Error(c, value)
    ensures c.limits == Unlimited ==>
      h'.lastOutput == c.kp * Error(c, value) + c.ki * h'.integral + c.kd * (Error(c, value) - h.previousError)
    ensures c.limits.max.Some? ==> h'.lastOutput <= c.limits.max.value
    ensures c.limits.min.Some? && Ordered(c.limits) ==> c.limits.min.value <= h'.lastOutput
  {
    History(h.integral + Error(c, value), Error(c, value), Clamp(Unclamped(c, h, value), c.limits))
  }

  /** The values returned by successive `compute` calls on `values`, starting from `h`. */
  function Outputs(c: Config, h: History, values: seq<real>): (outs: seq<real>)
    ensures |outs| == |values|
    ensures c.limits.max.Some? ==> forall i :: 0 <= i < |outs| ==> outs[i] <= c.limits.max.value
    ensures c.limits.min.Some? && Ordered(c.limits) ==>
      forall i :: 0 <= i < |outs| ==> c.limits.min.value <= outs[i]
    decreases |values|
  {
    if values == [] then []
    else
      var h' := Step(c, h, values[0]);
      [h'.lastOutput] + Outputs(c, h', values[1..])
  }

  /** The history after successive `compute` calls on `values`, starting from `h`. */
  function Final(c: Config, h: History, values: seq<real>): History
    decreases |values|
  {
    if values == [] then h else Final(c, Step(c, h, values[0]), values[1..])
  }

  /** The sum of the errors of `values` against `setpoint`. */
  function ErrorSum(setpoint: real, values: seq<real>): real
    decreases |values|
  {
    if values == [] then 0.0 else (setpoint - values[0]) + ErrorSum(setpoint, values[1..])
  }

  /** The accumulator is never clamped or decayed: it is the plain sum of every error seen. */
  lemma {:induction false} IntegralIsErrorSum(c: Config, h: History, values: seq<real>)
    ensures Final(c, h, values).integral == h.integral + ErrorSum(c.setpoint, values)
    decreases |values|
  {
    if values != [] {
      IntegralIsErrorSum(c, Step(c, h, values[0]), values[1..]);
    }
  }

  /** After at least one call, the remembered error is that of the last measurement. */
  lemma {:induction false} PreviousErrorIsLastError(c: Config, h: History, values: seq<real>)
    requires values != []
    ensures Final(c, h, values).previousError == c.setpoint - values[|values| - 1]
    decreases |values|
  {
    if |values| > 1 {
      PreviousErrorIsLastError(c, Step(c, h, values[0]), values[1..]);
    }
  }

  /**
   * A purely proportional controller with unit gain and no limits returns
   * exactly `setpoint - value` on every call, whatever its history.
   */
  lemma {:induction false} UnitProportionalTracksError(c: Config, h: History, values: seq<real>)
    requires c.kp == 1.0 && c.ki == 0.0 && c.kd == 0.0 && c.limits == Unlimited
    ensures forall i :: 0 <= i < |values| ==> Outputs(c, h, values)[i] == c.setpoint - values[i]
    decreases |values|
  {
    if values != [] {
      var h' := Step(c, h, values[0]);
      UnitProportionalTracksError(c, h', values[1..]);
      var outs := Outputs(c, h, values);
      assert outs == [h'.lastOutput] + Outputs(c, h', values[1..]);
      forall i | 0 < i < |values|
        ensures outs[i] == c.setpoint - values[i]
      {
        assert outs[i] == Outputs(c, h', values[1..])[i - 1];
      }
    }
  }

  /**
   * The last returned output plays no part in later calls: two histories
   * that agree on the accumulator and the previous error produce the same
   * outputs and end in the same history.
   */
  lemma {:induction false} LastOutputIsNotFedBack(c: Config, h1: History, h2: History, values: seq<real>)
    requires values != []
    requires h1.integral == h2.integral && h1.previousError == h2.previousError
    ensures Outputs(c, h1, values) == Outputs(c, h2, values)
    ensures Final(c, h1, values) == Final(c, h2, values)
  {
    assert Step(c, h1, values[0]) == Step(c, h2, values[0]);
  }

  /** The regulator of `pid_controller.py`, state held in fields. */
  class PidController {
    var kp: real
    var ki: real
    var kd: real
    var setpoint: real
    var outputLimits: Limits
    var integral: real
    var previousError: real
    var lastOutput: real

    /** The configuration part of the state. */
    function Configuration(): Config
      reads this
    {
      Config(kp, ki, kd, setpoint, outputLimits)
    }

    /** The history part of the state. */
    function Memory(): History
      reads this
    {
      History(integral, previousError, lastOutput)
    }

    constructor (kp: real, ki: real, kd: real, setpoint: real := 0.0, outputLimits: Limits := Unlimited)
      ensures Configuration() == Config(kp, ki, kd, setpoint, outputLimits)
      ensures Memory() == Cleared
    {
      this.kp := kp;
      this.ki := ki;
      this.kd := kd;
      this.setpoint := setpoint;
      this.outputLimits := outputLimits;
      integral := 0.0;
      previousError := 0.0;
      lastOutput := 0.0;
    }

    /** One regulator update for the measurement `currentValue`. */
    method Compute(currentValue: real) returns (output: real)
      modifies this`integral, this`previousError, this`lastOutput
      ensures Configuration() == old(Configuration())
      ensures Memory() == Step(Configuration(), old(Memory()), currentValue)
      ensures previousError == setpoint - currentValue
      ensures integral == old(integral) + (setpoint - currentValue)
      ensures outputLimits == Unlimited ==>
        output == kp * (setpoint - currentValue) + ki * integral + kd * ((setpoint - currentValue) - old(previousError))
      ensures outputLimits.max.Some? ==> output <= outputLimits.max.value
      ensures outputLimits.min.Some? && Ordered(outputLimits) ==> outputLimits.min.value <= output
      ensures output == lastOutput
    {
      var error := setpoint - currentValue;
      var proportional := kp * error;
      integral := integral + error;
      var integralTerm := ki * integral;
      var derivative := kd * (error - previousError);
      previousError := error;
      output := proportional + integralTerm + derivative;
      ghost var unclamped := output;
      if outputLimits.min.Some? {
        output := Max(outputLimits.min.value, output);
      }
      if outputLimits.max.Some? {
        output := Min(outputLimits.max.value, output);
      }
      lastOutput := output;
      assert unclamped == Unclamped(Configuration(), old(Memory()), currentValue);
    }

    /**
     * Forget the history. Afterwards the controller is in the state of a
     * freshly constructed one with the same configuration, so every later
     * sequence of `Compute` calls returns `Outputs(Configuration(), Cleared, ...)`.
     */
    method Reset()
      modifies this`integral, this`previousError, this`lastOutput
      ensures Memory() == Cleared
      ensures Configuration() == old(Configuration())
    {
      integral := 0.0;
      previousError := 0.0;
      lastOutput := 0.0;
    }

    method SetSetpoint(setpoint: real)
      modifies this`setpoint
      ensures Configuration() == old(Configuration()).(setpoint := setpoint)
      ensures Memory() == old(Memory())
    {
      this.setpoint := setpoint;
    }

    method SetOutputLimits(minOutput: Option<real>, maxOutput: Option<real>)
      modifies this`outputLimits
      ensures Configuration() == old(Configuration()).(limits := Limits(minOutput, maxOutput))
      ensures Memory() == old(Memory())
    {
      outputLimits := Limits(minOutput, maxOutput);
    }
  }

  /**
   * A reset controller answers two calls exactly as a freshly constructed
   * controller with the same configuration does.
   */
  method ResetMatchesFreshController(p: PidController, v1: real, v2: real) returns (afterReset: seq<real>, freshOutputs: seq<real>)
    modifies p`integral, p`previousError, p`lastOutput
    ensures afterReset == freshOutputs == Outputs(p.Configuration(), Cleared, [v1, v2])
  {
    p.Reset();
    var a1 := p.Compute(v1);
    var a2 := p.Compute(v2);
    var q := new PidController(p.kp, p.ki, p.kd, p.setpoint, p.outputLimits);
    var b1 := q.Compute(v1);
    var b2 := q.Compute(v2);
    afterReset, freshOutputs := [a1, a2], [b1, b2];
    assert [v1, v2][1..] == [v2];
  }
}
