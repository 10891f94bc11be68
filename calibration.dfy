/** Axis calibration of the goniometer: both axes turn 9680*2/160 = 121 motor steps per
    degree, angles become steps by Python's `int()` (truncation toward zero), and each
    axis may only be commanded inside the step interval of 10 to 90 degrees. */
module Calibration {

  datatype Axis = X | Y

  /** Steps per degree; the same gearing on both axes. */
  function StepsPerDegree(axis: Axis): (r: real)
    ensures r == 121.0
  {
    (9680 * 2) as real / 160 as real
  }

  /** Steps from the limit switch to the zero-degree position. */
  function HomeOffset(axis: Axis): int {
    match axis
    case X => -10720
    case Y => -10252
  }

  /** The default homing angle and the low end of the allowed range, in degrees. */
  const SoftLimit: real := 10.0

  /** The high end of the allowed range, in degrees. */
  const HighAngle: real := 90.0

  /** Python's `int(x)` on a float: truncation toward zero. */
  function Trunc(x: real): (r: int)
    ensures 0.0 <= x ==> 0 <= r && r as real <= x < r as real + 1.0
    ensures x < 0.0 ==> r <= 0 && r as real - 1.0 < x <= r as real
  {
    if x >= 0.0 then x.Floor else -((-x).Floor)
  }

  /** `angle_to_steps` */
  function AngleToSteps(axis: Axis, angle: real): int {
    Trunc(angle * StepsPerDegree(axis))
  }

  /** `steps_to_angle` */
  function StepsToAngle(axis: Axis, steps: int): real {
    steps as real / StepsPerDegree(axis)
  }

  datatype Limits = Limits(low: int, high: int)

  /** `hard_limits[axis]`: the steps of the soft limit and of 90 degrees. */
  function HardLimits(axis: Axis): (r: Limits)
    ensures r.low == 1210 && r.high == 10890 && r.low < r.high
  {
    Limits(AngleToSteps(axis, SoftLimit), AngleToSteps(axis, HighAngle))
  }

  predicate WithinHardLimits(axis: Axis, steps: int) {
    HardLimits(axis).low <= steps <= HardLimits(axis).high
  }

  /** Converting an angle to steps and back loses less than one step's angle, and never
      moves away from zero. */
  lemma AngleStepsRoundTrip(axis: Axis, angle: real)
    ensures var back := StepsToAngle(axis, AngleToSteps(axis, angle));
      (angle >= 0.0 ==> angle - 1.0 / 121.0 < back <= angle)
      && (angle < 0.0 ==> angle <= back < angle + 1.0 / 121.0)
  {
    var x := angle * 121.0;
    var n := Trunc(x);
    assert StepsToAngle(axis, n) == n as real / 121.0;
    if angle >= 0.0 {
      assert n as real <= x < n as real + 1.0;
    } else {
      assert n as real - 1.0 < x <= n as real;
    }
  }

  /** Converting steps to an angle and back is exact. */
  lemma StepsAngleRoundTrip(axis: Axis, steps: int)
    ensures AngleToSteps(axis, StepsToAngle(axis, steps)) == steps
  {
    assert StepsToAngle(axis, steps) * 121.0 == steps as real;
  }

  /** `angle_to_steps` is monotone. */
  lemma AngleToStepsMonotone(axis: Axis, a: real, b: real)
    requires a <= b
    ensures AngleToSteps(axis, a) <= AngleToSteps(axis, b)
  {
    var x, y := a * 121.0, b * 121.0;
    assert x <= y;
  }

  /** The angles whose steps fall inside the hard limits are exactly 10 <= angle <
      10891/121 (just above 90 degrees, because truncation keeps 90.008 at 10890 steps). */
  lemma WithinHardLimitsIff(axis: Axis, angle: real)
    ensures WithinHardLimits(axis, AngleToSteps(axis, angle)) <==> 10.0 <= angle < 10891.0 / 121.0
  {
    var x := angle * 121.0;
    var n := AngleToSteps(axis, angle);
    if 10.0 <= angle < 10891.0 / 121.0 {
      assert 1210.0 <= x < 10891.0;
      assert 1210 <= n <= 10890;
    }
    if 1210 <= n <= 10890 {
      assert 1210.0 <= x < 10891.0;
    }
  }
}
