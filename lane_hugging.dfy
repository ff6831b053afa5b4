/**
 * Lane-hugging compensation (selfdrive/controls/lane_hugging.py): a car that
 * pulls to one side has its steering angle on that side divided by a factor
 * that grows from 1.0 at 0 degrees to lane_hug_mod at lane_hug_angle.
 *
 * The three tuning values come from opParams; here they are the fields of a
 * value. numpy_fast.interp is a parameter.
 */
module LaneHugging {
  import opened Common

  /** lane_hug_direction: None, 'left', 'right' or any other string. */
  datatype LaneHugConfig = LaneHugConfig(direction: Option<string>, hugMod: real, hugAngle: real)

  /** The breakpoints and values of the divisor's interpolation. */
  function HugBp(c: LaneHugConfig): seq<real> { [0.0, c.hugAngle] }
  function HugV(c: LaneHugConfig): seq<real> { [1.0, c.hugMod] }

  /** The divisor applied to an angle. */
  function Divisor(c: LaneHugConfig, angle: real, interp: Interp): real
  {
    interp(angle, HugBp(c), HugV(c))
  }

  /** Whether the angle is on the side the car pulls to: positive for 'left', negative for 'right'. */
  predicate Hugged(c: LaneHugConfig, angle: real)
  {
    (c.direction == Some("left") && angle > 0.0) || (c.direction == Some("right") && angle < 0.0)
  }

  /**
   * LaneHugging.lane_hug. A zero divisor would raise in Python, so the
   * divisor must be nonzero where it is used.
   */
  function LaneHug(c: LaneHugConfig, angle: real, interp: Interp): (r: real)
    requires Hugged(c, angle) ==> Divisor(c, angle, interp) != 0.0
    ensures !Hugged(c, angle) ==> r == angle
    ensures Hugged(c, angle) ==> r * Divisor(c, angle, interp) == angle
  {
    if c.direction == Some("left") && angle > 0.0 then angle / Divisor(c, angle, interp)
    else if c.direction == Some("right") && angle < 0.0 then angle / Divisor(c, angle, interp)
    else angle
  }

  /** Without a direction, or with an unknown one, the angle passes through unchanged. */
  lemma NoDirectionNoChange(c: LaneHugConfig, angle: real, interp: Interp)
    requires c.direction != Some("left") && c.direction != Some("right")
    ensures LaneHug(c, angle, interp) == angle
  {
  }

  /**
   * With a divisor of at least 1 the output keeps the input's sign and is no
   * larger in magnitude: the compensation only softens the angle.
   */
  lemma LaneHugSoftens(c: LaneHugConfig, angle: real, interp: Interp)
    requires Divisor(c, angle, interp) >= 1.0
    ensures var r := LaneHug(c, angle, interp);
            (angle >= 0.0 ==> 0.0 <= r <= angle) && (angle <= 0.0 ==> angle <= r <= 0.0)
  {
    var d := Divisor(c, angle, interp);
    var r := LaneHug(c, angle, interp);
    if Hugged(c, angle) {
      assert r * d == angle;
      if angle > 0.0 {
        assert r > 0.0;
        assert r <= r * d;
      } else {
        assert r < 0.0;
        assert r * d <= r;
      }
    }
  }

  /**
   * For 'right' the hugged angle is negative, below the first breakpoint 0,
   * where interp returns its first value 1.0: right-side hugging never
   * changes the angle.
   */
  lemma RightHugClamped(c: LaneHugConfig, angle: real, interp: Interp)
    requires InterpClampsBelow(interp)
    requires c.direction == Some("right")
    ensures LaneHug(c, angle, interp) == angle
  {
    if angle < 0.0 {
      assert Divisor(c, angle, interp) == 1.0;
    }
  }
}
