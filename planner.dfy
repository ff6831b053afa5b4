/**
 * The longitudinal planner (selfdrive/controls/lib/planner.py): the cruise
 * acceleration limits, their tightening in turns, the choice of the slowest
 * plan among the model, cruise and the two lead MPCs, the reset while
 * longitudinal control is not engaged, and the interpolated start state for
 * the next cycle.
 *
 * numpy_fast.interp and speed_smoother are parameters; the two MPC wrappers
 * are represented by what the planner reads from them after their update.
 * The map speed-limit and curvature logic, the model-curvature speed and
 * the geometric lead-in-path checks are not part of this model: their
 * results (the limited cruise setpoint, the model speed, lead1_check and
 * lead2_check) are inputs.
 */
module LongitudinalPlanner {
  import opened Common
  import LongitudinalControl

  const CruiseMinBp: seq<real> := [0.0, 5.0, 10.0, 20.0, 55.0]
  const CruiseMinFollowing: seq<real> := [-4.0, -3.5, -3.0, -2.5, -2.0]
  const CruiseMin: seq<real> := [-1.6, -0.7, -0.6, -0.5, -0.3]
  const CruiseMaxBp: seq<real> := [0.0, 5.0, 10.0, 20.0, 55.0]
  const CruiseMax: seq<real> := [3.0, 3.0, 1.5, 0.5, 0.3]
  const CruiseMaxEco: seq<real> := [1.0, 1.5, 1.0, 0.3, 0.1]
  const CruiseMaxSport: seq<real> := [3.0, 3.5, 4.0, 4.0, 4.0]
  const CruiseMaxFollowing: seq<real> := [1.3, 1.6, 1.2, 0.7, 0.3]
  const TotalMaxBp: seq<real> := [0.0, 25.0, 55.0]
  const TotalMax: seq<real> := [2.3, 3.0, 3.9]

  /** The MPC's step and the planner's period, in seconds. */
  const LonMpcStep: real := 0.2
  const DtPlan: real := 0.05
  /** The deceleration forced on a distracted driver. */
  const AwarenessDecel: real := -0.2
  /** CV.DEG_TO_RAD as a double. */
  const DegToRad: real := 0.017453292519943295

  /** speed_smoother(v, a, v_target, a_max, a_min, j_max, j_min, ts), a parameter. */
  type SpeedSmoother = (real, real, real, real, real, real, real, real) -> (real, real)

  // ---------------------------------------------------------------- cruise limits

  /**
   * calc_cruise_accel_limits: (a_cruise_min, a_cruise_max). The minimum
   * table depends only on following; the maximum table is the following one
   * when following, else sport for gas button 1, eco for 2, the default
   * otherwise.
   */
  function CalcCruiseAccelLimits(vEgo: real, following: bool, gasButtonStatus: int, interp: Interp): (real, real)
  {
    var aMin := if following then interp(vEgo, CruiseMinBp, CruiseMinFollowing) else interp(vEgo, CruiseMinBp, CruiseMin);
    var aMax :=
      if following then interp(vEgo, CruiseMaxBp, CruiseMaxFollowing)
      else if gasButtonStatus == 1 then interp(vEgo, CruiseMaxBp, CruiseMaxSport)
      else if gasButtonStatus == 2 then interp(vEgo, CruiseMaxBp, CruiseMaxEco)
      else interp(vEgo, CruiseMaxBp, CruiseMax);
    (aMin, aMax)
  }

  /** When following, the gas button does not matter: both limits come from the following tables. */
  lemma FollowingIgnoresGasButton(vEgo: real, g1: int, g2: int, interp: Interp)
    ensures CalcCruiseAccelLimits(vEgo, true, g1, interp) == CalcCruiseAccelLimits(vEgo, true, g2, interp)
    ensures CalcCruiseAccelLimits(vEgo, true, g1, interp) ==
            (interp(vEgo, CruiseMinBp, CruiseMinFollowing), interp(vEgo, CruiseMaxBp, CruiseMaxFollowing))
  {
  }

  /** When not following, the button picks the maximum table: 1 sport, 2 eco, anything else the default. */
  lemma GasButtonPicksMaxTable(vEgo: real, g: int, interp: Interp)
    ensures var r := CalcCruiseAccelLimits(vEgo, false, g, interp);
            r.0 == interp(vEgo, CruiseMinBp, CruiseMin) &&
            (g == 1 ==> r.1 == interp(vEgo, CruiseMaxBp, CruiseMaxSport)) &&
            (g == 2 ==> r.1 == interp(vEgo, CruiseMaxBp, CruiseMaxEco)) &&
            (g != 1 && g != 2 ==> r.1 == interp(vEgo, CruiseMaxBp, CruiseMax))
  {
  }

  function SeqMin(s: seq<real>): real
    requires |s| > 0
  {
    if |s| == 1 then s[0] else Min(s[0], SeqMin(s[1..]))
  }

  function SeqMax(s: seq<real>): real
    requires |s| > 0
  {
    if |s| == 1 then s[0] else Max(s[0], SeqMax(s[1..]))
  }

  /** interp's result lies between the smallest and the largest of its values, as a piecewise-linear lookup's does. */
  ghost predicate InterpWithinValues(interp: Interp)
  {
    forall x: real, xp: seq<real>, fp: seq<real> {:trigger interp(x, xp, fp)} ::
      |fp| > 0 ==> SeqMin(fp) <= interp(x, xp, fp) <= SeqMax(fp)
  }

  /**
   * Whatever the speed, following state and button, the cruise minimum is
   * a deceleration of at least 0.3 and the maximum an acceleration of at
   * least 0.1, so the two limits never cross.
   */
  lemma CruiseLimitsOrdered(vEgo: real, following: bool, g: int, interp: Interp)
    requires InterpWithinValues(interp)
    ensures var r := CalcCruiseAccelLimits(vEgo, following, g, interp);
            r.0 <= -0.3 && r.1 >= 0.1 && r.0 < r.1
  {
    assert SeqMax(CruiseMinFollowing) == -2.0 by {
      assert CruiseMinFollowing[1..][1..][1..][1..] == [-2.0];
    }
    assert SeqMax(CruiseMin) == -0.3 by {
      assert CruiseMin[1..][1..][1..][1..] == [-0.3];
    }
    assert SeqMin(CruiseMax) == 0.3 by {
      assert CruiseMax[1..][1..][1..][1..] == [0.3];
    }
    assert SeqMin(CruiseMaxEco) == 0.1 by {
      assert CruiseMaxEco[1..][1..][1..][1..] == [0.1];
    }
    assert SeqMin(CruiseMaxSport) == 3.0 by {
      assert CruiseMaxSport[1..][1..][1..][1..] == [4.0];
    }
    assert SeqMin(CruiseMaxFollowing) == 0.3 by {
      assert CruiseMaxFollowing[1..][1..][1..][1..] == [0.3];
    }
  }

  // ---------------------------------------------------------------- limits in turns

  /** The car's steering geometry. */
  datatype CarGeometry = CarGeometry(steerRatio: real, wheelbase: real)

  /** The lateral acceleration the steering angle implies at this speed. */
  function LateralAccel(vEgo: real, angle: real, cp: CarGeometry): (r: real)
    requires cp.steerRatio * cp.wheelbase != 0.0
  {
    vEgo * vEgo * Abs(angle) * DegToRad / (cp.steerRatio * cp.wheelbase)
  }

  /** A sharper angle implies at least as much lateral acceleration. */
  lemma LateralAccelMonotone(vEgo: real, a1: real, a2: real, cp: CarGeometry)
    requires cp.steerRatio * cp.wheelbase > 0.0
    requires Abs(a1) <= Abs(a2)
    ensures 0.0 <= LateralAccel(vEgo, a1, cp) <= LateralAccel(vEgo, a2, cp)
  {
    var k := vEgo * vEgo * DegToRad;
    assert k >= 0.0;
    assert k * Abs(a1) <= k * Abs(a2);
    DivMonotone(k * Abs(a1), k * Abs(a2), cp.steerRatio * cp.wheelbase);
    assert vEgo * vEgo * Abs(a1) * DegToRad == k * Abs(a1);
    assert vEgo * vEgo * Abs(a2) * DegToRad == k * Abs(a2);
  }

  /**
   * The limits after `a[1] = min(a[1], m1, m2); a[0] = min(a[0], a[1])`:
   * the maximum drops to the smallest of the three, the minimum never
   * exceeds the new maximum, and each is one of the values it was chosen from.
   */
  function TurnLimited(a: (real, real), m1: real, m2: real): (r: (real, real))
    ensures r.1 <= a.1 && r.1 <= m1 && r.1 <= m2 && (r.1 == a.1 || r.1 == m1 || r.1 == m2)
    ensures r.0 <= a.0 && r.0 <= r.1 && (r.0 == a.0 || r.0 == r.1)
  {
    var hi := Min(Min(a.1, m1), m2);
    (Min(a.0, hi), hi)
  }

  /** Tightening twice by the same bounds changes nothing more. */
  lemma TurnLimitedIdempotent(a: (real, real), m1: real, m2: real)
    ensures TurnLimited(TurnLimited(a, m1, m2), m1, m2) == TurnLimited(a, m1, m2)
  {
  }

  /** The longitudinal acceleration left once the lateral acceleration of this angle is spent. */
  function TurnAllowance(vEgo: real, angle: real, cp: CarGeometry, interp: Interp): real
    requires cp.steerRatio * cp.wheelbase != 0.0
  {
    interp(vEgo, TotalMaxBp, TotalMax) - LateralAccel(vEgo, angle, cp)
  }

  /**
   * limit_accel_in_turns, in place on the two-element list of limits, which
   * it also returns: the caller's accel_limits_turns is the same list.
   */
  method LimitAccelInTurns(vEgo: real, angleSteers: real, aTarget: array<real>, cp: CarGeometry,
                           angleLater: real, interp: Interp)
    returns (r: array<real>)
    requires aTarget.Length == 2
    requires cp.steerRatio * cp.wheelbase != 0.0
    modifies aTarget
    ensures r == aTarget
    ensures (aTarget[0], aTarget[1]) ==
            TurnLimited((old(aTarget[0]), old(aTarget[1])),
                        TurnAllowance(vEgo, angleSteers, cp, interp), TurnAllowance(vEgo, angleLater, cp, interp))
  {
    var aTotalMax := interp(vEgo, TotalMaxBp, TotalMax);
    var aY := LateralAccel(vEgo, angleSteers, cp);
    var aY2 := LateralAccel(vEgo, angleLater, cp);
    var aXAllowed := aTotalMax - aY;
    var aXAllowed2 := aTotalMax - aY2;
    aTarget[1] := Min(Min(aTarget[1], aXAllowed), aXAllowed2);
    aTarget[0] := Min(aTarget[0], aTarget[1]);
    r := aTarget;
  }

  // ---------------------------------------------------------------- choosing a plan

  datatype PlanSource = Model | Cruise | Mpc1 | Mpc2

  /** What the planner reads from a lead MPC wrapper after its update. */
  datatype MpcView = MpcView(prevLeadStatus: bool, vMpc: real, aMpc: real, vMpcFuture: real)

  /**
   * The index Python's min(solutions, key=solutions.get) picks: scanning in
   * order and replacing the best only by a strictly smaller speed, the first
   * of the slowest entries.
   */
  function SlowestIndex(c: seq<(PlanSource, real)>): (i: nat)
    requires |c| > 0
    ensures i < |c|
    ensures forall j :: 0 <= j < |c| ==> c[i].1 <= c[j].1
    ensures forall j :: 0 <= j < i ==> c[j].1 > c[i].1
  {
    if |c| == 1 then 0
    else
      var i := SlowestIndex(c[..|c| - 1]);
      assert forall j :: 0 <= j < |c| - 1 ==> c[..|c| - 1][j] == c[j];
      if c[|c| - 1].1 < c[i].1 then |c| - 1 else i
  }

  /** The solutions dictionary, in insertion order: model, cruise, then each lead MPC that follows a lead in the path. */
  function Candidates(vModel: real, vCruise: real, mpc1: MpcView, mpc2: MpcView, lead1Check: bool, lead2Check: bool)
    : (c: seq<(PlanSource, real)>)
    ensures 2 <= |c| <= 4 && c[0] == (Model, vModel) && c[1] == (Cruise, vCruise)
  {
    [(Model, vModel), (Cruise, vCruise)] +
    (if mpc1.prevLeadStatus && lead1Check then [(Mpc1, mpc1.vMpc)] else []) +
    (if mpc2.prevLeadStatus && lead2Check then [(Mpc2, mpc2.vMpc)] else [])
  }

  /** The chosen entry. */
  function Slowest(c: seq<(PlanSource, real)>): (p: (PlanSource, real))
    requires |c| > 0
  {
    c[SlowestIndex(c)]
  }

  /**
   * The chosen plan is one of the candidates and no faster than any of
   * them: never faster than the model or cruise plan, nor than an MPC that
   * follows a lead in the path; on a tie the earlier candidate wins.
   */
  lemma ChosenIsSlowest(vModel: real, vCruise: real, mpc1: MpcView, mpc2: MpcView, lead1Check: bool, lead2Check: bool)
    ensures var c := Candidates(vModel, vCruise, mpc1, mpc2, lead1Check, lead2Check);
            var p := Slowest(c);
            p in c && p.1 <= vModel && p.1 <= vCruise &&
            (mpc1.prevLeadStatus && lead1Check ==> p.1 <= mpc1.vMpc) &&
            (mpc2.prevLeadStatus && lead2Check ==> p.1 <= mpc2.vMpc) &&
            (p.0 == Model ==> p.1 == vModel) && (vModel <= vCruise ==> p.0 == Model || p.1 < vModel)
  {
    var c := Candidates(vModel, vCruise, mpc1, mpc2, lead1Check, lead2Check);
    var i := SlowestIndex(c);
    if mpc1.prevLeadStatus && lead1Check {
      assert c[2] == (Mpc1, mpc1.vMpc);
    }
    if mpc2.prevLeadStatus && lead2Check {
      assert c[|c| - 1] == (Mpc2, mpc2.vMpc);
    }
    if c[i].0 == Model {
      assert i == 0 by {
        assert forall k :: 1 <= k < |c| ==> c[k].0 != Model;
      }
    }
  }

  /** The planner's acceleration for a chosen source. */
  function SourceAccel(source: PlanSource, aModel: real, aCruise: real, mpc1: MpcView, mpc2: MpcView): real
  {
    match source
    case Model => aModel
    case Cruise => aCruise
    case Mpc1 => mpc1.aMpc
    case Mpc2 => mpc2.aMpc
  }

  /** v_acc_future: the cruise setpoint, lowered to each checked MPC's one-second-ahead speed. */
  function FutureTarget(vCruiseSetpoint: real, mpc1: MpcView, mpc2: MpcView, lead1Check: bool, lead2Check: bool)
    : (r: real)
    ensures r <= vCruiseSetpoint
    ensures lead1Check ==> r <= mpc1.vMpcFuture
    ensures lead2Check ==> r <= mpc2.vMpcFuture
    ensures r == vCruiseSetpoint || (lead1Check && r == mpc1.vMpcFuture) || (lead2Check && r == mpc2.vMpcFuture)
  {
    var f := vCruiseSetpoint;
    var f := if lead1Check then Min(mpc1.vMpcFuture, f) else f;
    if lead2Check then Min(mpc2.vMpcFuture, f) else f
  }

  // ---------------------------------------------------------------- the start state

  /**
   * The start state for the next cycle: the acceleration moves a quarter of
   * the way (DT_PLAN / LON_MPC_STEP) towards the planned one, and the speed
   * advances by the mean of the old and new accelerations over DT_PLAN.
   */
  function AdvanceStart(v0: real, a0: real, aAcc: real): (r: (real, real))
    ensures Min(a0, aAcc) <= r.1 <= Max(a0, aAcc)
    ensures Abs(aAcc - r.1) == 0.75 * Abs(aAcc - a0)
  {
    var a := a0 + (DtPlan / LonMpcStep) * (aAcc - a0);
    var v := v0 + DtPlan * (a + a0) / 2.0;
    (v, a)
  }

  /** A start state already at the planned acceleration keeps it and moves at it for one period. */
  lemma AdvanceStartSteady(v0: real, a0: real)
    ensures AdvanceStart(v0, a0, a0) == (v0 + DtPlan * a0, a0)
  {
  }

  // ---------------------------------------------------------------- the planner

  /** The car-state fields the planner reads. */
  datatype PlannerCarState = PlannerCarState(vEgo: real, aEgo: real, leftBlinker: bool, rightBlinker: bool,
                                             steeringAngle: real)

  /** The radar lead fields the following test reads. */
  datatype PlannerLead = PlannerLead(dRel: real, vLeadK: real, aLeadK: real)

  /** The car parameters the planner reads. */
  datatype PlannerParams = PlannerParams(geometry: CarGeometry, startAccel: real)

  /** Longitudinal control plans only in pid and stopping. */
  predicate PlanningEnabled(state: LongitudinalControl.LongCtrlState)
  {
    state == LongitudinalControl.Pid || state == LongitudinalControl.Stopping
  }

  /** Following: a lead MPC has a lead within 45 m that pulls away and accelerates. */
  predicate Following(prevLeadStatus: bool, lead: PlannerLead, vEgo: real)
  {
    prevLeadStatus && lead.dRel < 45.0 && lead.vLeadK > vEgo && lead.aLeadK > 0.0
  }

  /** The steering angle and the later angle the turn limit uses: both 0 while a blinker is on. */
  function TurnAngles(cs: PlannerCarState, angleLater: real): (r: (real, real))
    ensures cs.leftBlinker || cs.rightBlinker ==> r == (0.0, 0.0)
    ensures cs.vEgo < 11.0 ==> r.1 == 0.0
  {
    if cs.leftBlinker || cs.rightBlinker then (0.0, 0.0)
    else (cs.steeringAngle, if cs.vEgo < 11.0 then 0.0 else angleLater)
  }

  /**
   * The cruise limits after the turn limit and, when the driver is
   * distracted, the awareness deceleration. Both smoother calls see these
   * limits, because the turn limit works on the limits list itself.
   */
  function PlanLimits(cs: PlannerCarState, angleLater: real, following: bool, gasButtonStatus: int,
                      forceSlowDecel: bool, cp: PlannerParams, interp: Interp): (r: (real, real))
    requires cp.geometry.steerRatio * cp.geometry.wheelbase != 0.0
    ensures r.0 <= r.1
    ensures forceSlowDecel ==> r.1 <= AwarenessDecel
  {
    var angles := TurnAngles(cs, angleLater);
    var limits := TurnLimited(CalcCruiseAccelLimits(cs.vEgo, following, gasButtonStatus, interp),
                              TurnAllowance(cs.vEgo, angles.0, cp.geometry, interp),
                              TurnAllowance(cs.vEgo, angles.1, cp.geometry, interp));
    if forceSlowDecel then TurnLimited(limits, AwarenessDecel, AwarenessDecel) else limits
  }

  /**
   * The map adjustments of the engaged limits, on the single list that
   * accel_limits and accel_limits_turns both name. Decelerating for a turn
   * raises the lower limit to the required deceleration (never above 0).
   * A speed limit ahead, while the cruise plan is the source, pins both
   * limits to the required deceleration (between -3 and 0) and also makes
   * it the start acceleration: the second result.
   */
  function MapOverride(lim: (real, real), turnDecel: Option<real>, aheadDecel: Option<real>, source: PlanSource)
    : (r: ((real, real), Option<real>))
    ensures aheadDecel.Some? && source == Cruise ==>
              r.1.Some? && r.0 == (r.1.value, r.1.value) && -3.0 <= r.1.value <= 0.0 &&
              r.1.value == Max(Min(0.0, aheadDecel.value), -3.0)
    ensures !(aheadDecel.Some? && source == Cruise) ==>
              r.1 == None && r.0.1 == lim.1 && lim.0 <= r.0.0 &&
              r.0.0 == (if turnDecel.Some? then Max(lim.0, Min(0.0, turnDecel.value)) else lim.0)
  {
    var low := if turnDecel.Some? then Max(lim.0, Min(0.0, turnDecel.value)) else lim.0;
    if aheadDecel.Some? && source == Cruise then
      var required := Max(Min(0.0, aheadDecel.value), -3.0);
      ((required, required), Some(required))
    else ((low, lim.1), None)
  }

  /** The planner's fields. */
  datatype PlannerState = PlannerState(vAccStart: real, aAccStart: real, vAcc: real, vAccFuture: real, aAcc: real,
                                       vCruise: real, aCruise: real, vModel: real, aModel: real, source: PlanSource)

  /**
   * What one update reads: the car state, the controls state, the radar
   * lead, the car parameters and the MPCs. The two map adjustments come in
   * already decided: turnDecel is Some((v_curvature_map - v_ego) /
   * time_to_turn) on a cycle where the car decelerates for a turn within
   * reach, and aheadDecel is Some((v_ahead^2 - v_ego^2) / (2 * distance))
   * on a cycle where a lower speed limit lies ahead, the car is above it and
   * the distance exceeds 0.1 m.
   */
  datatype PlanInputs = PlanInputs(cs: PlannerCarState, angleLater: real, gasButtonStatus: int,
                                   longControlState: LongitudinalControl.LongCtrlState, vCruiseSetpoint: real,
                                   forceSlowDecel: bool, mpc1PrevLeadStatus: bool, lead1: PlannerLead,
                                   cp: PlannerParams, modelSpeed: real, mpc1: MpcView, mpc2: MpcView,
                                   lead1Check: bool, lead2Check: bool,
                                   turnDecel: Option<real>, aheadDecel: Option<real>)

  predicate GeometryUsable(cp: PlannerParams)
  {
    cp.geometry.steerRatio * cp.geometry.wheelbase != 0.0
  }

  /**
   * The engaged branch: the cruise plan from the smoother under the
   * limits after the turn limit and the map adjustments, floored at 0, and
   * the model plan from the smoother under twice the upper limit. Both
   * start from the start state, whose acceleration a speed limit ahead
   * overrides first. Besides the two plans only that start acceleration
   * changes, and only through the speed limit ahead.
   */
  function Engaged(s: PlannerState, inp: PlanInputs, interp: Interp, smoother: SpeedSmoother): (r: PlannerState)
    requires GeometryUsable(inp.cp)
    ensures r.vCruise >= 0.0
    ensures r == s.(aAccStart := r.aAccStart, vCruise := r.vCruise, aCruise := r.aCruise, vModel := r.vModel, aModel := r.aModel)
    ensures inp.aheadDecel.None? || s.source != Cruise ==> r.aAccStart == s.aAccStart
    ensures inp.aheadDecel.Some? && s.source == Cruise ==>
              r.aAccStart == Max(Min(0.0, inp.aheadDecel.value), -3.0) && -3.0 <= r.aAccStart <= 0.0
  {
    var following := Following(inp.mpc1PrevLeadStatus, inp.lead1, inp.cs.vEgo);
    var plan := PlanLimits(inp.cs, inp.angleLater, following, inp.gasButtonStatus, inp.forceSlowDecel, inp.cp, interp);
    var over := MapOverride(plan, inp.turnDecel, inp.aheadDecel, s.source);
    var lim := over.0;
    var a0 := if over.1.Some? then over.1.value else s.aAccStart;
    var jerk := CalcCruiseAccelLimits(inp.cs.vEgo, following, inp.gasButtonStatus, interp);
    var cruise := smoother(s.vAccStart, a0, inp.vCruiseSetpoint, lim.1, lim.0,
                           Max(0.1, jerk.1), Min(-0.1, jerk.0), LonMpcStep);
    var model := smoother(s.vAccStart, a0, inp.modelSpeed, 2.0 * lim.1, lim.0,
                          2.0 * Max(0.1, jerk.1), Min(-0.1, jerk.0), LonMpcStep);
    s.(aAccStart := a0, vCruise := Max(cruise.0, 0.0), aCruise := cruise.1, vModel := model.0, aModel := model.1)
  }

  /** The speed and acceleration plans are reset to while longitudinal control is not engaged. */
  function ResetTarget(inp: PlanInputs): (real, real)
  {
    if inp.longControlState == LongitudinalControl.Starting then (LongitudinalControl.MinCanSpeed, inp.cp.startAccel)
    else (inp.cs.vEgo, Min(inp.cs.aEgo, 0.0))
  }

  /** The disengaged branch: the target, the start state and the cruise plan all become the reset values. */
  function Reset(s: PlannerState, inp: PlanInputs): (r: PlannerState)
    ensures var t := ResetTarget(inp);
            r == s.(vAcc := t.0, aAcc := t.1, vAccStart := t.0, aAccStart := t.1, vCruise := t.0, aCruise := t.1)
  {
    var t := ResetTarget(inp);
    s.(vAcc := t.0, aAcc := t.1, vAccStart := t.0, aAccStart := t.1, vCruise := t.0, aCruise := t.1)
  }

  /**
   * choose_solution: when enabled, the slowest candidate becomes the plan
   * source and its speed and acceleration the target; the future target is
   * always recomputed.
   */
  function Choose(s: PlannerState, vCruiseSetpoint: real, enabled: bool, mpc1: MpcView, mpc2: MpcView,
                  lead1Check: bool, lead2Check: bool): (r: PlannerState)
    ensures r.vAccFuture == FutureTarget(vCruiseSetpoint, mpc1, mpc2, lead1Check, lead2Check)
    ensures !enabled ==> r == s.(vAccFuture := r.vAccFuture)
    ensures enabled ==> r == s.(source := r.source, vAcc := r.vAcc, aAcc := r.aAcc, vAccFuture := r.vAccFuture)
    ensures enabled ==> r.vAcc <= s.vModel && r.vAcc <= s.vCruise
    ensures enabled && mpc1.prevLeadStatus && lead1Check ==> r.vAcc <= mpc1.vMpc
    ensures enabled && mpc2.prevLeadStatus && lead2Check ==> r.vAcc <= mpc2.vMpc
  {
    var future := FutureTarget(vCruiseSetpoint, mpc1, mpc2, lead1Check, lead2Check);
    if enabled then
      var p := Slowest(Candidates(s.vModel, s.vCruise, mpc1, mpc2, lead1Check, lead2Check));
      ChosenIsSlowest(s.vModel, s.vCruise, mpc1, mpc2, lead1Check, lead2Check);
      s.(source := p.0, vAcc := p.1, aAcc := SourceAccel(p.0, s.aModel, s.aCruise, mpc1, mpc2), vAccFuture := future)
    else
      s.(vAccFuture := future)
  }

  /** One planner update: engaged or reset, then the choice, then the start state advanced towards the chosen acceleration. */
  function PlanStep(s: PlannerState, inp: PlanInputs, interp: Interp, smoother: SpeedSmoother): PlannerState
    requires GeometryUsable(inp.cp)
  {
    var enabled := PlanningEnabled(inp.longControlState);
    var t := if enabled then Engaged(s, inp, interp, smoother) else Reset(s, inp);
    var c := Choose(t, inp.vCruiseSetpoint, enabled, inp.mpc1, inp.mpc2, inp.lead1Check, inp.lead2Check);
    var start := AdvanceStart(c.vAccStart, c.aAccStart, c.aAcc);
    c.(vAccStart := start.0, aAccStart := start.1)
  }

  /**
   * What an update promises. Engaged: the cruise speed is not negative, the
   * target is the slowest of the plans that count, and the start state
   * moves from where it was (its acceleration replaced by the deceleration
   * a speed limit ahead requires) towards the target acceleration. Disengaged:
   * target and cruise plan are the reset values and the start state
   * advances from them. Always: the future target is at most the setpoint.
   */
  lemma PlanStepRules(s: PlannerState, inp: PlanInputs, interp: Interp, smoother: SpeedSmoother)
    requires GeometryUsable(inp.cp)
    ensures var r := PlanStep(s, inp, interp, smoother);
            var enabled := PlanningEnabled(inp.longControlState);
            var e := Engaged(s, inp, interp, smoother);
            var t := ResetTarget(inp);
            r.vAccFuture <= inp.vCruiseSetpoint &&
            (enabled ==> r.vCruise >= 0.0 && r.vAcc <= e.vModel && r.vAcc <= e.vCruise &&
                         (inp.mpc1.prevLeadStatus && inp.lead1Check ==> r.vAcc <= inp.mpc1.vMpc) &&
                         (inp.mpc2.prevLeadStatus && inp.lead2Check ==> r.vAcc <= inp.mpc2.vMpc) &&
                         (r.vAccStart, r.aAccStart) == AdvanceStart(s.vAccStart, e.aAccStart, r.aAcc) &&
                         (inp.aheadDecel.None? || s.source != Cruise ==>
                            (r.vAccStart, r.aAccStart) == AdvanceStart(s.vAccStart, s.aAccStart, r.aAcc)) &&
                         (inp.aheadDecel.Some? && s.source == Cruise ==>
                            (r.vAccStart, r.aAccStart) ==
                              AdvanceStart(s.vAccStart, Max(Min(0.0, inp.aheadDecel.value), -3.0), r.aAcc))) &&
            (!enabled ==> r.vAcc == t.0 && r.aAcc == t.1 && r.vCruise == t.0 && r.aCruise == t.1 &&
                          r.source == s.source && (r.vAccStart, r.aAccStart) == AdvanceStart(t.0, t.1, t.1))
  {
  }

  class Planner {
    var vAccStart: real
    var aAccStart: real
    var vAcc: real
    var vAccFuture: real
    var aAcc: real
    var vCruise: real
    var aCruise: real
    var vModel: real
    var aModel: real
    var longitudinalPlanSource: PlanSource

    function State(): PlannerState
      reads this
    {
      PlannerState(vAccStart, aAccStart, vAcc, vAccFuture, aAcc, vCruise, aCruise, vModel, aModel, longitudinalPlanSource)
    }

    constructor()
      ensures State() == PlannerState(0.0, 0.0, 0.0, 0.0, 0.0, 0.0, 0.0, 0.0, 0.0, Cruise)
    {
      vAccStart := 0.0;
      aAccStart := 0.0;
      vAcc := 0.0;
      vAccFuture := 0.0;
      aAcc := 0.0;
      vCruise := 0.0;
      aCruise := 0.0;
      vModel := 0.0;
      aModel := 0.0;
      longitudinalPlanSource := Cruise;
    }

    /** Planner.choose_solution, with the lead-in-path checks given. */
    method ChooseSolution(vCruiseSetpoint: real, enabled: bool, mpc1: MpcView, mpc2: MpcView,
                          lead1Check: bool, lead2Check: bool)
      modifies this
      ensures State() == Choose(old(State()), vCruiseSetpoint, enabled, mpc1, mpc2, lead1Check, lead2Check)
    {
      if enabled {
        var slowest := Slowest(Candidates(vModel, vCruise, mpc1, mpc2, lead1Check, lead2Check));
        longitudinalPlanSource := slowest.0;
        SlowestValue(vModel, vCruise, mpc1, mpc2, lead1Check, lead2Check);
        match slowest.0
        case Mpc1 =>
          vAcc := mpc1.vMpc;
          aAcc := mpc1.aMpc;
        case Mpc2 =>
          vAcc := mpc2.vMpc;
          aAcc := mpc2.aMpc;
        case Cruise =>
          vAcc := vCruise;
          aAcc := aCruise;
        case Model =>
          vAcc := vModel;
          aAcc := aModel;
      }
      vAccFuture := vCruiseSetpoint;
      if lead1Check {
        vAccFuture := Min(mpc1.vMpcFuture, vAccFuture);
      }
      if lead2Check {
        vAccFuture := Min(mpc2.vMpcFuture, vAccFuture);
      }
    }

    /**
     * The planning part of Planner.update: engaged or reset, the choice of
     * solution, and the start state interpolated for the next cycle.
     */
    method Update(inp: PlanInputs, interp: Interp, smoother: SpeedSmoother)
      requires GeometryUsable(inp.cp)
      modifies this
      ensures State() == PlanStep(old(State()), inp, interp, smoother)
    {
      ghost var s0 := State();
      var enabled := PlanningEnabled(inp.longControlState);
      if enabled {
        PlanEngaged(inp, Following(inp.mpc1PrevLeadStatus, inp.lead1, inp.cs.vEgo), interp, smoother);
      } else {
        var starting := inp.longControlState == LongitudinalControl.Starting;
        var aEgo := Min(inp.cs.aEgo, 0.0);
        var resetSpeed := if starting then LongitudinalControl.MinCanSpeed else inp.cs.vEgo;
        var resetAccel := if starting then inp.cp.startAccel else aEgo;
        vAcc := resetSpeed;
        aAcc := resetAccel;
        vAccStart := resetSpeed;
        aAccStart := resetAccel;
        vCruise := resetSpeed;
        aCruise := resetAccel;
        assert State() == Reset(s0, inp);
      }
      ghost var t := State();
      ChooseSolution(inp.vCruiseSetpoint, enabled, inp.mpc1, inp.mpc2, inp.lead1Check, inp.lead2Check);
      ghost var c := State();
      assert t == (if enabled then Engaged(s0, inp, interp, smoother) else Reset(s0, inp));
      assert c == Choose(t, inp.vCruiseSetpoint, enabled, inp.mpc1, inp.mpc2, inp.lead1Check, inp.lead2Check);
      // interpolate DT_PLAN seconds ahead as the next cycle's starting point
      var sol := AdvanceStart(vAccStart, aAccStart, aAcc);
      vAccStart := sol.0;
      aAccStart := sol.1;
      assert State() == c.(vAccStart := sol.0, aAccStart := sol.1);
    }

    /** The engaged branch: the limits, the two smoother calls and the cruise floor. */
    method PlanEngaged(inp: PlanInputs, following: bool, interp: Interp, smoother: SpeedSmoother)
      requires GeometryUsable(inp.cp)
      requires following == Following(inp.mpc1PrevLeadStatus, inp.lead1, inp.cs.vEgo)
      modifies this
      ensures State() == Engaged(old(State()), inp, interp, smoother)
    {
      var lim, jerkLimits, start := EngagedLimits(inp, following, longitudinalPlanSource, interp);
      if start.Some? {
        aAccStart := start.value;
      }
      var cruise := smoother(vAccStart, aAccStart, inp.vCruiseSetpoint, lim.1, lim.0,
                             jerkLimits.1, jerkLimits.0, LonMpcStep);
      vCruise, aCruise := cruise.0, cruise.1;
      var model := smoother(vAccStart, aAccStart, inp.modelSpeed, 2.0 * lim.1, lim.0,
                            2.0 * jerkLimits.1, jerkLimits.0, LonMpcStep);
      vModel, aModel := model.0, model.1;
      vCruise := Max(vCruise, 0.0);
    }
  }

  /**
   * The limits of the engaged branch. The turn limit works in place on the
   * accel_limits list and returns that same list, so after the forced
   * deceleration accel_limits and accel_limits_turns are one list holding
   * the tightened limits, which the map adjustments then change again; the
   * jerk limits come from the limits before. The start acceleration a speed
   * limit ahead imposes is returned.
   */
  method EngagedLimits(inp: PlanInputs, following: bool, source: PlanSource, interp: Interp)
    returns (lim: (real, real), jerk: (real, real), start: Option<real>)
    requires GeometryUsable(inp.cp)
    ensures (lim, start) ==
            MapOverride(PlanLimits(inp.cs, inp.angleLater, following, inp.gasButtonStatus, inp.forceSlowDecel, inp.cp, interp),
                        inp.turnDecel, inp.aheadDecel, source)
    ensures var l := CalcCruiseAccelLimits(inp.cs.vEgo, following, inp.gasButtonStatus, interp);
            jerk == (Min(-0.1, l.0), Max(0.1, l.1)) && jerk.0 <= -0.1 && jerk.1 >= 0.1
  {
    var cs := inp.cs;
    var limits := CalcCruiseAccelLimits(cs.vEgo, following, inp.gasButtonStatus, interp);
    var accelLimits := new real[2];
    accelLimits[0], accelLimits[1] := limits.0, limits.1;
    jerk := (Min(-0.1, accelLimits[0]), Max(0.1, accelLimits[1]));
    var angles := TurnAngles(cs, inp.angleLater);
    var accelLimitsTurns := LimitAccelInTurns(cs.vEgo, angles.0, accelLimits, inp.cp.geometry, angles.1, interp);
    if inp.forceSlowDecel {
      accelLimitsTurns[1] := Min(accelLimitsTurns[1], AwarenessDecel);
      accelLimitsTurns[0] := Min(accelLimitsTurns[0], accelLimitsTurns[1]);
    }
    start := None;
    if inp.turnDecel.Some? {
      var requiredDecel := Min(0.0, inp.turnDecel.value);
      accelLimits[0] := Max(accelLimits[0], requiredDecel);
    }
    if inp.aheadDecel.Some? && source == Cruise {
      var requiredDecel := Min(0.0, inp.aheadDecel.value);
      requiredDecel := Max(requiredDecel, -3.0);
      accelLimits[0] := requiredDecel;
      accelLimits[1] := requiredDecel;
      start := Some(requiredDecel);
    }
    lim := (accelLimits[0], accelLimits[1]);
  }

  /** The chosen entry's speed is the one its source contributed. */
  lemma SlowestValue(vModel: real, vCruise: real, mpc1: MpcView, mpc2: MpcView, lead1Check: bool, lead2Check: bool)
    ensures var p := Slowest(Candidates(vModel, vCruise, mpc1, mpc2, lead1Check, lead2Check));
            (p.0 == Model ==> p.1 == vModel) && (p.0 == Cruise ==> p.1 == vCruise) &&
            (p.0 == Mpc1 ==> p.1 == mpc1.vMpc) && (p.0 == Mpc2 ==> p.1 == mpc2.vMpc)
  {
    var c := Candidates(vModel, vCruise, mpc1, mpc2, lead1Check, lead2Check);
    assert forall k :: 0 <= k < |c| ==>
      (c[k].0 == Model ==> c[k].1 == vModel) && (c[k].0 == Cruise ==> c[k].1 == vCruise) &&
      (c[k].0 == Mpc1 ==> c[k].1 == mpc1.vMpc) && (c[k].0 == Mpc2 ==> c[k].1 == mpc2.vMpc);
  }
}
