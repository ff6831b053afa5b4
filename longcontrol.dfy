/**
 * Longitudinal control (selfdrive/controls/lib/longcontrol.py): the
 * off/pid/stopping/starting state machine, the gas limit profile, and the
 * per-cycle update that shapes one acceleration command and splits it into
 * mutually exclusive gas and brake outputs.
 */
module LongitudinalControl {
  import opened Common

  datatype LongCtrlState = Off | Pid | Stopping | Starting

  const StoppingEgoSpeed: real := 0.5
  const MinCanSpeed: real := 0.3
  const StoppingTargetSpeed: real := MinCanSpeed + 0.01
  const StartingTargetSpeed: real := 0.5
  const BrakeThresholdToPid: real := 0.2
  const StoppingBrakeRate: real := 0.2
  const StartingBrakeRate: real := 0.8
  const BrakeStoppingTarget: real := 0.5
  const Rate: real := 100.0
  /** Cycles of full braking that one forward-collision warning forces. */
  const FcwCycles: int := 200

  predicate StoppingCondition(vEgo: real, vTarget: real, vPid: real, brakePressed: bool, cruiseStandstill: bool)
  {
    (vEgo < 2.0 && cruiseStandstill) ||
    (vEgo < StoppingEgoSpeed && ((vPid < StoppingTargetSpeed && vTarget < StoppingTargetSpeed) || brakePressed))
  }

  predicate StartingCondition(vTarget: real, cruiseStandstill: bool)
  {
    vTarget > StartingTargetSpeed && !cruiseStandstill
  }

  /** long_control_state_trans: one step of the state machine. */
  function StateTrans(active: bool, state: LongCtrlState, vEgo: real, vTarget: real, vPid: real,
                      outputGb: real, brakePressed: bool, cruiseStandstill: bool): LongCtrlState
  {
    var stopping := StoppingCondition(vEgo, vTarget, vPid, brakePressed, cruiseStandstill);
    var starting := StartingCondition(vTarget, cruiseStandstill);
    if !active then Off
    else match state
      case Off => Pid
      case Pid => if stopping then Stopping else Pid
      case Stopping => if starting then Starting else Stopping
      case Starting =>
        if stopping then Stopping
        else if outputGb >= -BrakeThresholdToPid then Pid
        else Starting
  }

  /** Deactivation wins over every state. */
  lemma InactiveIsOff(state: LongCtrlState, vEgo: real, vTarget: real, vPid: real, outputGb: real,
                      brakePressed: bool, cruiseStandstill: bool)
    ensures StateTrans(false, state, vEgo, vTarget, vPid, outputGb, brakePressed, cruiseStandstill) == Off
  {
  }

  /** From off the only active successor is pid: off never jumps to stopping or starting. */
  lemma OffOnlyToPid(active: bool, vEgo: real, vTarget: real, vPid: real, outputGb: real,
                     brakePressed: bool, cruiseStandstill: bool)
    ensures StateTrans(active, Off, vEgo, vTarget, vPid, outputGb, brakePressed, cruiseStandstill)
            == (if active then Pid else Off)
  {
  }

  /** pid moves to stopping exactly when the stopping condition holds. */
  lemma PidStopsIffStoppingCondition(vEgo: real, vTarget: real, vPid: real, outputGb: real,
                                     brakePressed: bool, cruiseStandstill: bool)
    ensures var r := StateTrans(true, Pid, vEgo, vTarget, vPid, outputGb, brakePressed, cruiseStandstill);
            (r == Stopping <==> StoppingCondition(vEgo, vTarget, vPid, brakePressed, cruiseStandstill)) &&
            (r == Stopping || r == Pid)
  {
  }

  /** stopping moves to starting exactly when the target rises above 0.5 and the cruise is not at standstill. */
  lemma StoppingStartsIff(vEgo: real, vTarget: real, vPid: real, outputGb: real,
                          brakePressed: bool, cruiseStandstill: bool)
    ensures var r := StateTrans(true, Stopping, vEgo, vTarget, vPid, outputGb, brakePressed, cruiseStandstill);
            (r == Starting <==> (vTarget > 0.5 && !cruiseStandstill)) && (r == Starting || r == Stopping)
  {
  }

  /** In starting, the stopping condition takes priority; pid is resumed only once the brake output is at least -0.2. */
  lemma StartingPriorities(vEgo: real, vTarget: real, vPid: real, outputGb: real,
                           brakePressed: bool, cruiseStandstill: bool)
    ensures var r := StateTrans(true, Starting, vEgo, vTarget, vPid, outputGb, brakePressed, cruiseStandstill);
            (StoppingCondition(vEgo, vTarget, vPid, brakePressed, cruiseStandstill) ==> r == Stopping) &&
            (r == Pid <==> (!StoppingCondition(vEgo, vTarget, vPid, brakePressed, cruiseStandstill) && outputGb >= -0.2))
  {
  }

  /** The inputs of one call of the state machine. */
  datatype TransInput = TransInput(active: bool, vEgo: real, vTarget: real, vPid: real, outputGb: real,
                                   brakePressed: bool, cruiseStandstill: bool)

  function Next(s: LongCtrlState, x: TransInput): LongCtrlState
  {
    StateTrans(x.active, s, x.vEgo, x.vTarget, x.vPid, x.outputGb, x.brakePressed, x.cruiseStandstill)
  }

  /** The state after feeding a sequence of inputs, one per cycle, from s0. */
  function StateAfter(s0: LongCtrlState, xs: seq<TransInput>): LongCtrlState
  {
    if xs == [] then s0 else Next(StateAfter(s0, xs[..|xs| - 1]), xs[|xs| - 1])
  }

  /**
   * Starting from off, stopping and starting are reachable only through pid:
   * whatever the inputs, some earlier cycle left the machine in pid.
   */
  lemma {:induction false} StopOrStartOnlyThroughPid(xs: seq<TransInput>)
    requires StateAfter(Off, xs) == Stopping || StateAfter(Off, xs) == Starting
    ensures exists k :: 0 < k < |xs| && StateAfter(Off, xs[..k]) == Pid
  {
    var n := |xs|;
    assert n > 0;
    var p := xs[..n - 1];
    var s := StateAfter(Off, p);
    assert StateAfter(Off, xs) == Next(s, xs[n - 1]);
    if s == Pid {
      assert n - 1 > 0;
      assert xs[..n - 1] == p;
    } else if s == Off {
      assert false;
    } else {
      StopOrStartOnlyThroughPid(p);
      var k :| 0 < k < |p| && StateAfter(Off, p[..k]) == Pid;
      assert p[..k] == xs[..k];
    }
  }

  /** The walk-through of a full stop-and-go: off, pid, stopping, starting and back to pid. */
  lemma StopAndGoScenario()
    ensures StateTrans(true, Off, 0.0, 10.0, 0.0, 0.0, false, false) == Pid
    ensures StateTrans(true, Pid, 0.0, 0.4, 0.3, 0.0, false, true) == Stopping
    ensures StateTrans(true, Stopping, 0.0, 1.0, 0.3, -0.5, false, false) == Starting
    ensures StateTrans(true, Starting, 0.0, 1.0, 1.0, -0.1, false, false) == Pid
  {
  }

  /** What the radar reports about the lead car, as far as the gas profile reads it. */
  datatype Lead = Lead(status: bool, vRel: real)

  const DynamicGasBp: seq<real> := [0.0, 1.4082, 2.80311, 4.22661, 5.38271, 6.16561, 7.24781, 8.28308,
    10.24465, 12.96402, 15.42303, 18.11903, 20.11703, 24.46614, 29.05805, 32.71015, 35.76326]
  const DefaultGasBp: seq<real> := [0.0, 9.0, 35.0]

  /** The gas-limit table for the interceptor flag and the gas-button profile (0 dynamic, 1 sport, 2 eco). */
  function GasTable(gasInterceptor: bool, gasButtonStatus: int): seq<real>
    requires 0 <= gasButtonStatus <= 2
  {
    if gasInterceptor then
      if gasButtonStatus == 0 then
        [0.2, 0.20443, 0.21592, 0.23334, 0.25734, 0.27916, 0.3229, 0.34784, 0.36765, 0.38, 0.396,
         0.409, 0.425, 0.478, 0.55, 0.621, 0.7]
      else if gasButtonStatus == 1 then [0.25, 0.9, 0.9]
      else [0.2, 0.5, 0.7]
    else
      if gasButtonStatus == 0 then
        [0.35, 0.47, 0.43, 0.35, 0.3, 0.3, 0.3229, 0.34784, 0.36765, 0.38, 0.396, 0.409, 0.425,
         0.478, 0.55, 0.621, 0.7]
      else if gasButtonStatus == 1 then [0.9, 0.95, 0.99]
      else [0.25, 0.2, 0.2]
  }

  /**
   * LongControl.dynamic_gas: the gas limit for the speed, adjusted by the
   * relative speed of a recently seen lead in the dynamic profile, clamped to
   * [0, 1] and rounded to five digits.
   */
  function DynamicGas(vEgo: real, gasInterceptor: bool, gasButtonStatus: int, noneCount: int,
                      lastLead: Option<Lead>, interp: Interp): (r: real)
    requires 0 <= gasButtonStatus <= 2
    ensures 0.0 <= r <= 1.0
  {
    var dynamic := gasButtonStatus == 0;
    var x := if dynamic then DynamicGasBp else DefaultGasBp;
    var accel := interp(vEgo, x, GasTable(gasInterceptor, gasButtonStatus));
    var vRel := if noneCount < 10 && lastLead.Some? && lastLead.value.status then Some(lastLead.value.vRel) else None;
    var adjusted :=
      if dynamic && vRel.Some? then
        if vEgo < 6.7056 then
          accel + interp(vRel.value, [1.61479, 1.99067, 2.28537, 2.49888, 2.6312, 2.68224],
                         [-accel, -(accel / 1.06), -(accel / 1.2), -(accel / 1.8), -(accel / 4.4), 0.0])
        else
          accel + interp(vRel.value, [-0.89408, 0.0, 0.89408, 4.4704], [-0.15, -0.05, 0.005, 0.05])
      else accel;
    var clamped := Max(Min(adjusted, 1.0), 0.0);
    RoundToWithin(clamped, 100000.0, 0, 100000);
    RoundTo(clamped, 100000.0)
  }

  /** The car parameters the longitudinal update reads. */
  datatype CarParams = CarParams(stoppingControl: bool, brakeMaxBp: seq<real>, brakeMaxV: seq<real>,
                                 deadzoneBp: seq<real>, deadzoneV: seq<real>)

  /** Whether the pid state freezes its integrator and forbids positive output near a stop. */
  predicate PreventOvershoot(stoppingControl: bool, vEgo: real, vTargetFuture: real)
  {
    !stoppingControl && vEgo < 1.5 && vTargetFuture < 0.7
  }

  /** The stopping state's brake ramp, before clipping to the actuator limits. */
  function StoppingRamp(outputGb: real, standstill: bool): real
  {
    if !standstill || outputGb > -BrakeStoppingTarget then outputGb - StoppingBrakeRate / Rate else outputGb
  }

  /** The starting state's brake release ramp. */
  function StartingRamp(outputGb: real): real
  {
    if outputGb < -0.2 then outputGb + StartingBrakeRate / Rate else outputGb
  }

  /** The output after n consecutive cycles in starting. */
  function StartingRampN(outputGb: real, n: nat): real
  {
    if n == 0 then outputGb else StartingRamp(StartingRampN(outputGb, n - 1))
  }

  /**
   * In starting the brake is released at 0.8 per second (0.008 per cycle)
   * until the output reaches the -0.2 threshold that hands back to pid, and
   * the ramp never carries the output more than one step past it.
   */
  lemma {:induction false} StartingRampProgress(outputGb: real, n: nat)
    ensures Min(outputGb + 0.008 * n as real, -0.2) <= StartingRampN(outputGb, n) <= Max(outputGb, -0.192)
  {
    if n > 0 {
      StartingRampProgress(outputGb, n - 1);
    }
  }

  /** The forward-collision countdown after one cycle. */
  function FcwCountdownStep(countdown: int, fcw: bool): int
  {
    var c := if fcw then FcwCycles else countdown;
    if c > 0 then c - 1 else c
  }

  /** Whether a cycle's gas and brake are overridden by the forward-collision countdown. */
  predicate FcwOverride(countdown: int, fcw: bool)
  {
    fcw || countdown > 0
  }

  /** The countdown after a sequence of cycles, given each cycle's fcw flag. */
  function CountdownAfter(c0: int, fcws: seq<bool>): int
  {
    if fcws == [] then c0 else FcwCountdownStep(CountdownAfter(c0, fcws[..|fcws| - 1]), fcws[|fcws| - 1])
  }

  lemma {:induction false} CountdownAfterWarning(c0: int, fcws: seq<bool>)
    requires 1 <= |fcws| <= FcwCycles && fcws[0]
    ensures CountdownAfter(c0, fcws) >= FcwCycles - |fcws|
  {
    var n := |fcws|;
    if n == 1 {
      assert fcws[..0] == [];
    } else {
      var p := fcws[..n - 1];
      assert p[0] == fcws[0];
      CountdownAfterWarning(c0, p);
    }
  }

  /**
   * One forward-collision warning forces zero gas and full brake on its own
   * cycle and on each of the following 199 cycles, whatever happens next.
   */
  lemma FcwForcesBrakeForCountdown(c0: int, fcws: seq<bool>)
    requires 1 <= |fcws| <= FcwCycles && fcws[0]
    ensures FcwOverride(CountdownAfter(c0, fcws[..|fcws| - 1]), fcws[|fcws| - 1])
  {
    var n := |fcws|;
    if n > 1 {
      var p := fcws[..n - 1];
      assert p[0] == fcws[0];
      CountdownAfterWarning(c0, p);
    }
  }

  /** With non-negative limits, the gas/brake split is non-negative and never both positive. */
  lemma GasBrakeExclusive(outputGb: real, gasMax: real, brakeMax: real)
    requires gasMax >= 0.0 && brakeMax >= 0.0
    ensures var gas := Clip(outputGb, 0.0, gasMax);
            var brake := -Clip(outputGb, -brakeMax, 0.0);
            0.0 <= gas <= gasMax && 0.0 <= brake <= brakeMax && (gas == 0.0 || brake == 0.0) &&
            (gas > 0.0 ==> outputGb > 0.0) && (brake > 0.0 ==> outputGb < 0.0)
  {
  }

  /** The fields of a LongControl object, as one value. */
  datatype ControlState = ControlState(
    state: LongCtrlState, pid: PidState, vPid: real, fcwCountdown: int, lastOutputGb: real,
    lastDecelForTurn: bool, lastLead: Option<Lead>, freeze: bool, noneCount: int)

  /** The bounds the counters keep. */
  predicate ControlValid(c: ControlState)
  {
    0 <= c.fcwCountdown < FcwCycles && 0 <= c.noneCount <= 10
  }

  /** The arguments of one LongControl.update call. */
  datatype ControlInputs = ControlInputs(
    active: bool, vEgo: real, brakePressed: bool, standstill: bool, cruiseStandstill: bool,
    vTarget: real, vTargetFuture: real, aTarget: real, cp: CarParams,
    gasInterceptor: bool, gasButtonStatus: int, decelForTurn: bool, planSource: string,
    leadOne: Option<Lead>, gasPressed: bool, fcw: bool)

  /**
   * The PID gains while following the cruise plan: entering a turn
   * deceleration zeroes the proportional and integral gains and clears the
   * integrator, leaving it restores them; outside cruise the gains are
   * always the full ones. The second component is the new lastDecelForTurn.
   */
  function TurnGains(p: PidState, last: bool, decelForTurn: bool, cruise: bool): (r: (PidState, bool))
    ensures r.1 == (cruise && decelForTurn)
    ensures cruise && decelForTurn && !last ==> r.0 == p.(gainScale := 0.0, i := 0.0)
    ensures (cruise && !decelForTurn && last) || !cruise ==> r.0 == p.(gainScale := 1.0)
    ensures cruise && decelForTurn == last ==> r.0 == p
  {
    if cruise then
      var (p1, l1) := if decelForTurn && !last then (p.(gainScale := 0.0, i := 0.0), true) else (p, last);
      if l1 && !decelForTurn then (p1.(gainScale := 1.0), false) else (p1, l1)
    else (p.(gainScale := 1.0), false)
  }

  /**
   * The integrator is cleared when a pedal is first pressed and left alone
   * otherwise; the second component, the new freeze flag, follows the pedals.
   */
  function FreezeGate(p: PidState, freeze: bool, pressed: bool): (r: (PidState, bool))
    ensures r.1 == pressed
    ensures r.0 == p.(i := r.0.i)
    ensures r.0.i == (if pressed && !freeze then 0.0 else p.i)
  {
    if pressed then (if !freeze then (p.(i := 0.0), true) else (p, freeze))
    else (p, false)
  }

  /**
   * The controller just before the PID step of the pid state: the setpoint
   * moves to the target, the limits become the gas and brake maxima, and the
   * gains and the integrator are handled for turns and pedals.
   */
  function PidPrep(c: ControlState, x: ControlInputs, gasMax: real, brakeMax: real): (r: ControlState)
    ensures r == c.(vPid := x.vTarget, pid := r.pid, lastDecelForTurn := r.lastDecelForTurn, freeze := r.freeze)
    ensures r.pid.posLimit == gasMax && r.pid.negLimit == -brakeMax && r.pid.saturated == c.pid.saturated
    ensures r.lastDecelForTurn == (x.planSource == "cruise" && x.decelForTurn)
    ensures r.freeze == (x.gasPressed || x.brakePressed)
    ensures ((x.planSource == "cruise" && x.decelForTurn && !c.lastDecelForTurn) ||
             ((x.gasPressed || x.brakePressed) && !c.freeze)) ==> r.pid.i == 0.0
    ensures (!(x.planSource == "cruise" && x.decelForTurn && !c.lastDecelForTurn) &&
             !((x.gasPressed || x.brakePressed) && !c.freeze)) ==> r.pid.i == c.pid.i
  {
    var cruise := x.planSource == "cruise";
    var (p1, turn) := TurnGains(c.pid.(posLimit := gasMax, negLimit := -brakeMax), c.lastDecelForTurn, x.decelForTurn, cruise);
    var (p2, frz) := FreezeGate(p1, c.freeze, x.gasPressed || x.brakePressed);
    c.(vPid := x.vTarget, pid := p2, lastDecelForTurn := turn, freeze := frz)
  }

  /**
   * The arguments of the PID step: track the target from the measured
   * speed (at least MinCanSpeed), feed the planned acceleration forward, and
   * freeze the integrator near a stop or while a pedal is pressed.
   */
  function PidCallArgs(x: ControlInputs, interp: Interp): (r: PidArgs)
    ensures r.setpoint == x.vTarget && r.measurement == r.speed == Max(x.vEgo, MinCanSpeed)
    ensures r.feedforward == x.aTarget
    ensures r.freezeIntegrator ==
            Some(PreventOvershoot(x.cp.stoppingControl, x.vEgo, x.vTargetFuture) || x.gasPressed || x.brakePressed)
    ensures r.checkSaturation.None? && r.override.None?
  {
    var vEgoPid := Max(x.vEgo, MinCanSpeed);
    PidArgs(x.vTarget, vEgoPid, vEgoPid, interp(vEgoPid, x.cp.deadzoneBp, x.cp.deadzoneV), x.aTarget,
            Some(PreventOvershoot(x.cp.stoppingControl, x.vEgo, x.vTargetFuture) || x.gasPressed || x.brakePressed),
            None, None)
  }

  /**
   * The pid branch: one PID step from the prepared controller, its output
   * capped at zero near a stop without stopping control.
   */
  function PidBranch(c: ControlState, x: ControlInputs, gasMax: real, brakeMax: real,
                     interp: Interp, pidUpdate: PidUpdate): (r: (ControlState, real))
    ensures var prep := PidPrep(c, x, gasMax, brakeMax);
            var step := pidUpdate(prep.pid, PidCallArgs(x, interp));
            r.0 == prep.(pid := step.pid) &&
            (PreventOvershoot(x.cp.stoppingControl, x.vEgo, x.vTargetFuture) ==> r.1 == Min(step.output, 0.0) <= 0.0) &&
            (!PreventOvershoot(x.cp.stoppingControl, x.vEgo, x.vTargetFuture) ==> r.1 == step.output)
  {
    var prep := PidPrep(c, x, gasMax, brakeMax);
    var step := pidUpdate(prep.pid, PidCallArgs(x, interp));
    (prep.(pid := step.pid),
     if PreventOvershoot(x.cp.stoppingControl, x.vEgo, x.vTargetFuture) then Min(step.output, 0.0) else step.output)
  }

  /** The per-state output shaping, for the state just entered; c.lastOutputGb is the previous output. */
  function Shape(c: ControlState, x: ControlInputs, gasMax: real, brakeMax: real,
                 interp: Interp, pidUpdate: PidUpdate): (r: (ControlState, real))
  {
    match c.state
    case Off => (c.(vPid := Max(x.vEgo, MinCanSpeed), pid := PidReset(c.pid)), 0.0)
    case Pid => PidBranch(c, x, gasMax, brakeMax, interp, pidUpdate)
    case Stopping =>
      (c.(vPid := x.vEgo, pid := PidReset(c.pid)), Clip(StoppingRamp(c.lastOutputGb, x.standstill), -brakeMax, gasMax))
    case Starting => (c.(vPid := x.vEgo, pid := PidReset(c.pid)), StartingRamp(c.lastOutputGb))
  }

  /** The lead bookkeeping at the start of an update. */
  function NoteLead(c: ControlState, leadOne: Option<Lead>): ControlState
  {
    if leadOne.Some? then c.(lastLead := leadOne, noneCount := 0)
    else c.(noneCount := ClipInt(c.noneCount + 1, 0, 10))
  }

  /** The gas limit of an update, read after the lead bookkeeping. */
  function GasMax(c: ControlState, x: ControlInputs, interp: Interp): real
    requires 0 <= x.gasButtonStatus <= 2
  {
    DynamicGas(x.vEgo, x.gasInterceptor, x.gasButtonStatus, c.noneCount, c.lastLead, interp)
  }

  function BrakeMax(x: ControlInputs, interp: Interp): real
  {
    interp(x.vEgo, x.cp.brakeMaxBp, x.cp.brakeMaxV)
  }

  /** The state machine step of an update, from the previous setpoint and output. */
  function Transition(c: ControlState, x: ControlInputs): ControlState
  {
    c.(state := StateTrans(x.active, c.state, x.vEgo, x.vTargetFuture, c.vPid, c.lastOutputGb,
                           x.brakePressed, x.cruiseStandstill))
  }

  /**
   * The end of an update: the output is remembered and split into gas and
   * brake, both overridden to (0, 1) while the forward-collision countdown
   * runs.
   */
  function Split(c: ControlState, out: real, gasMax: real, brakeMax: real, fcw: bool): (ControlState, real, real)
  {
    var override := FcwOverride(c.fcwCountdown, fcw);
    (c.(lastOutputGb := out, fcwCountdown := FcwCountdownStep(c.fcwCountdown, fcw)),
     if override then 0.0 else Clip(out, 0.0, gasMax),
     if override then 1.0 else -Clip(out, -brakeMax, 0.0))
  }

  /** LongControl.update on the controller's fields: the new fields, the gas and the brake. */
  function ControlStep(c: ControlState, x: ControlInputs, interp: Interp, pidUpdate: PidUpdate): (ControlState, real, real)
    requires 0 <= x.gasButtonStatus <= 2
  {
    var c1 := NoteLead(c, x.leadOne);
    var gasMax := GasMax(c1, x, interp);
    var brakeMax := BrakeMax(x, interp);
    var (c3, out) := Shape(Transition(c1, x), x, gasMax, brakeMax, interp, pidUpdate);
    Split(c3, out, gasMax, brakeMax, x.fcw)
  }

  /**
   * What each state does to the output and the PID: off outputs zero and
   * resets the PID at the measured speed, pid follows the target and never
   * pushes forward near a stop, stopping ramps the brake on within the
   * limits, starting ramps it off; in every state but pid the PID is reset.
   */
  lemma ShapeRules(c: ControlState, x: ControlInputs, gasMax: real, brakeMax: real, interp: Interp, pidUpdate: PidUpdate)
    ensures var (s, out) := Shape(c, x, gasMax, brakeMax, interp, pidUpdate);
            s.state == c.state && s.fcwCountdown == c.fcwCountdown && s.lastOutputGb == c.lastOutputGb &&
            s.lastLead == c.lastLead && s.noneCount == c.noneCount &&
            (c.state == Off ==> out == 0.0 && s.pid == PidReset(c.pid) && s.vPid == Max(x.vEgo, MinCanSpeed)) &&
            (c.state == Pid ==> s.vPid == x.vTarget && s.freeze == (x.gasPressed || x.brakePressed)) &&
            (c.state == Pid && PreventOvershoot(x.cp.stoppingControl, x.vEgo, x.vTargetFuture) ==> out <= 0.0) &&
            (c.state == Stopping ==> out == Clip(StoppingRamp(c.lastOutputGb, x.standstill), -brakeMax, gasMax) &&
                                     s.vPid == x.vEgo && s.pid == PidReset(c.pid)) &&
            (c.state == Starting ==> out == StartingRamp(c.lastOutputGb) && s.vPid == x.vEgo && s.pid == PidReset(c.pid))
  {
    if c.state == Pid {
      var prep := PidPrep(c, x, gasMax, brakeMax);
      assert prep.state == c.state;
    }
  }

  /**
   * The split: the countdown advances and stays below 200, the override
   * gives (0, 1), otherwise gas and brake are the output clipped to the
   * limits, and with non-negative limits they are never both applied.
   */
  lemma SplitRules(c: ControlState, out: real, gasMax: real, brakeMax: real, fcw: bool)
    ensures var (s, gas, brake) := Split(c, out, gasMax, brakeMax, fcw);
            s == c.(lastOutputGb := out, fcwCountdown := s.fcwCountdown) &&
            s.fcwCountdown == FcwCountdownStep(c.fcwCountdown, fcw) &&
            (FcwOverride(c.fcwCountdown, fcw) ==> gas == 0.0 && brake == 1.0) &&
            (!FcwOverride(c.fcwCountdown, fcw) ==> gas == Clip(out, 0.0, gasMax) && brake == -Clip(out, -brakeMax, 0.0)) &&
            (0.0 <= gasMax <= 1.0 && brakeMax >= 0.0 ==> 0.0 <= gas <= 1.0 && 0.0 <= brake && (gas == 0.0 || brake == 0.0)) &&
            (0 <= c.fcwCountdown < FcwCycles ==> 0 <= s.fcwCountdown < FcwCycles)
  {
    if 0.0 <= gasMax && brakeMax >= 0.0 {
      GasBrakeExclusive(out, gasMax, brakeMax);
    }
  }

  /**
   * One update: the lead is remembered (or the miss counted up to 10), the
   * state machine advances from the previous setpoint and output, and the
   * new state shapes the output that is remembered for the next cycle.
   */
  lemma {:induction false} ControlStepRules(c: ControlState, x: ControlInputs, interp: Interp, pidUpdate: PidUpdate)
    requires 0 <= x.gasButtonStatus <= 2
    ensures var s := ControlStep(c, x, interp, pidUpdate).0;
            var gasMax := DynamicGas(x.vEgo, x.gasInterceptor, x.gasButtonStatus, s.noneCount, s.lastLead, interp);
            var brakeMax := interp(x.vEgo, x.cp.brakeMaxBp, x.cp.brakeMaxV);
            (x.leadOne.Some? ==> s.lastLead == x.leadOne && s.noneCount == 0) &&
            (x.leadOne.None? ==> s.lastLead == c.lastLead && s.noneCount == ClipInt(c.noneCount + 1, 0, 10)) &&
            s.state == StateTrans(x.active, c.state, x.vEgo, x.vTargetFuture, c.vPid, c.lastOutputGb,
                                  x.brakePressed, x.cruiseStandstill) &&
            (s.state == Off ==> s.lastOutputGb == 0.0 && s.pid == PidReset(c.pid) && s.vPid == Max(x.vEgo, MinCanSpeed)) &&
            (s.state == Pid ==> s.vPid == x.vTarget) &&
            (s.state == Pid && PreventOvershoot(x.cp.stoppingControl, x.vEgo, x.vTargetFuture) ==> s.lastOutputGb <= 0.0) &&
            (s.state == Stopping ==> s.lastOutputGb == Clip(StoppingRamp(c.lastOutputGb, x.standstill), -brakeMax, gasMax) &&
                                     s.vPid == x.vEgo && s.pid == PidReset(c.pid)) &&
            (s.state == Starting ==> s.lastOutputGb == StartingRamp(c.lastOutputGb) && s.vPid == x.vEgo &&
                                     s.pid == PidReset(c.pid))
  {
    var c1 := NoteLead(c, x.leadOne);
    var gasMax := GasMax(c1, x, interp);
    var brakeMax := BrakeMax(x, interp);
    ShapeRules(Transition(c1, x), x, gasMax, brakeMax, interp, pidUpdate);
    var (c3, out) := Shape(Transition(c1, x), x, gasMax, brakeMax, interp, pidUpdate);
    SplitRules(c3, out, gasMax, brakeMax, x.fcw);
  }

  /**
   * The outputs of one update: gas and brake are the remembered output
   * clipped to the limits, or (0, 1) while the forward-collision countdown
   * runs; gas stays within [0, 1], and with a non-negative brake limit gas
   * and brake are never both applied. The counters keep their bounds.
   */
  lemma {:induction false} ControlStepOutputs(c: ControlState, x: ControlInputs, interp: Interp, pidUpdate: PidUpdate)
    requires 0 <= x.gasButtonStatus <= 2
    ensures var (s, gas, brake) := ControlStep(c, x, interp, pidUpdate);
            var gasMax := DynamicGas(x.vEgo, x.gasInterceptor, x.gasButtonStatus, s.noneCount, s.lastLead, interp);
            var brakeMax := interp(x.vEgo, x.cp.brakeMaxBp, x.cp.brakeMaxV);
            s.fcwCountdown == FcwCountdownStep(c.fcwCountdown, x.fcw) &&
            (FcwOverride(c.fcwCountdown, x.fcw) ==> gas == 0.0 && brake == 1.0) &&
            (!FcwOverride(c.fcwCountdown, x.fcw) ==>
               gas == Clip(s.lastOutputGb, 0.0, gasMax) && brake == -Clip(s.lastOutputGb, -brakeMax, 0.0)) &&
            (brakeMax >= 0.0 ==> 0.0 <= gas <= 1.0 && 0.0 <= brake && (gas == 0.0 || brake == 0.0)) &&
            (ControlValid(c) ==> ControlValid(s))
  {
    var c1 := NoteLead(c, x.leadOne);
    var gasMax := GasMax(c1, x, interp);
    var brakeMax := BrakeMax(x, interp);
    ShapeRules(Transition(c1, x), x, gasMax, brakeMax, interp, pidUpdate);
    var (c3, out) := Shape(Transition(c1, x), x, gasMax, brakeMax, interp, pidUpdate);
    SplitRules(c3, out, gasMax, brakeMax, x.fcw);
  }

  class LongControl {
    var longControlState: LongCtrlState
    var pid: PidState
    var vPid: real
    var fcwCountdown: int
    var lastOutputGb: real
    var lastDecelForTurn: bool
    var lastLead: Option<Lead>
    var freeze: bool
    var noneCount: int

    function State(): ControlState
      reads this
    {
      ControlState(longControlState, pid, vPid, fcwCountdown, lastOutputGb, lastDecelForTurn, lastLead, freeze, noneCount)
    }

    /** A controller starts in off with every accumulator at zero; pid0 is the freshly built PIController. */
    constructor (pid0: PidState)
      ensures State() == ControlState(Off, pid0, 0.0, 0, 0.0, false, None, false, 0)
      ensures ControlValid(State())
    {
      longControlState := Off;
      pid := pid0;
      vPid := 0.0;
      fcwCountdown := 0;
      lastOutputGb := 0.0;
      lastDecelForTurn := false;
      lastLead := None;
      freeze := false;
      noneCount := 0;
    }

    /** LongControl.reset: reset the PID and move the speed setpoint. */
    method Reset(newVPid: real)
      modifies this
      ensures State() == old(State()).(pid := PidReset(old(pid)), vPid := newVPid)
    {
      pid := PidReset(pid);
      vPid := newVPid;
    }

    /** The gain handling of the pid branch for turn deceleration. */
    method ApplyTurnGains(decelForTurn: bool, cruise: bool)
      modifies this
      ensures State() == old(State()).(pid := TurnGains(old(pid), old(lastDecelForTurn), decelForTurn, cruise).0,
                                       lastDecelForTurn := TurnGains(old(pid), old(lastDecelForTurn), decelForTurn, cruise).1)
    {
      if cruise {
        if decelForTurn && !lastDecelForTurn {
          lastDecelForTurn := true;
          pid := pid.(gainScale := 0.0, i := 0.0);
        }
        if lastDecelForTurn && !decelForTurn {
          lastDecelForTurn := false;
          pid := pid.(gainScale := 1.0);
        }
      } else {
        lastDecelForTurn := false;
        pid := pid.(gainScale := 1.0);
      }
    }

    /** The integrator handling of the pid branch for pressed pedals. */
    method ApplyFreeze(pressed: bool)
      modifies this
      ensures State() == old(State()).(pid := FreezeGate(old(pid), old(freeze), pressed).0,
                                       freeze := FreezeGate(old(pid), old(freeze), pressed).1)
    {
      if pressed {
        if !freeze {
          pid := pid.(i := 0.0);
          freeze := true;
        }
      } else if freeze {
        freeze := false;
      }
    }

    /** The limits, gains and integrator handling of the pid branch, before the PID step. */
    method PrepPid(x: ControlInputs, gasMax: real, brakeMax: real)
      modifies this
      ensures State() == PidPrep(old(State()), x, gasMax, brakeMax)
    {
      vPid := x.vTarget;
      pid := pid.(posLimit := gasMax, negLimit := -brakeMax);
      var cruise := x.planSource == "cruise";
      ApplyTurnGains(x.decelForTurn, cruise);
      ApplyFreeze(x.gasPressed || x.brakePressed);
    }

    /** The pid branch of LongControl.update. */
    method RunPid(x: ControlInputs, gasMax: real, brakeMax: real, interp: Interp, pidUpdate: PidUpdate)
      returns (outputGb: real)
      modifies this
      ensures (State(), outputGb) == PidBranch(old(State()), x, gasMax, brakeMax, interp, pidUpdate)
    {
      PrepPid(x, gasMax, brakeMax);
      var step := pidUpdate(pid, PidCallArgs(x, interp));
      pid := step.pid;
      outputGb := step.output;
      if PreventOvershoot(x.cp.stoppingControl, x.vEgo, x.vTargetFuture) {
        outputGb := Min(outputGb, 0.0);
      }
    }

    /** The per-state output shaping of LongControl.update, for the state just entered. */
    method ShapeOutput(x: ControlInputs, gasMax: real, brakeMax: real, interp: Interp, pidUpdate: PidUpdate)
      returns (outputGb: real)
      modifies this
      ensures (State(), outputGb) == Shape(old(State()), x, gasMax, brakeMax, interp, pidUpdate)
    {
      outputGb := lastOutputGb;
      match longControlState {
        case Off =>
          vPid := Max(x.vEgo, MinCanSpeed);
          pid := PidReset(pid);
          outputGb := 0.0;
        case Pid =>
          outputGb := RunPid(x, gasMax, brakeMax, interp, pidUpdate);
        case Stopping =>
          if !x.standstill || outputGb > -BrakeStoppingTarget {
            outputGb := outputGb - StoppingBrakeRate / Rate;
          }
          outputGb := Clip(outputGb, -brakeMax, gasMax);
          vPid := x.vEgo;
          pid := PidReset(pid);
        case Starting =>
          if outputGb < -0.2 {
            outputGb := outputGb + StartingBrakeRate / Rate;
          }
          vPid := x.vEgo;
          pid := PidReset(pid);
      }
    }

    /**
     * LongControl.update: advance the state machine, shape the output for the
     * new state, and split it into gas and brake, with the forward-collision
     * countdown overriding both; ControlStepRules states what this does.
     */
    method Update(x: ControlInputs, interp: Interp, pidUpdate: PidUpdate)
      returns (finalGas: real, finalBrake: real)
      requires 0 <= x.gasButtonStatus <= 2
      modifies this
      ensures (State(), finalGas, finalBrake) == ControlStep(old(State()), x, interp, pidUpdate)
    {
      ghost var c0 := State();
      if x.leadOne.Some? {
        lastLead := x.leadOne;
        noneCount := 0;
      } else {
        noneCount := ClipInt(noneCount + 1, 0, 10);
      }
      ghost var c1 := State();
      assert c1 == NoteLead(c0, x.leadOne);
      var gasMax := GasMax(State(), x, interp);
      var brakeMax := BrakeMax(x, interp);

      longControlState := StateTrans(x.active, longControlState, x.vEgo, x.vTargetFuture, vPid, lastOutputGb,
                                     x.brakePressed, x.cruiseStandstill);
      assert State() == Transition(c1, x);
      var outputGb := ShapeOutput(x, gasMax, brakeMax, interp, pidUpdate);
      finalGas, finalBrake := SplitOutput(outputGb, gasMax, brakeMax, x.fcw);
    }

    /** The end of LongControl.update: remember the output, split it, apply the countdown. */
    method SplitOutput(outputGb: real, gasMax: real, brakeMax: real, fcw: bool)
      returns (finalGas: real, finalBrake: real)
      modifies this
      ensures (State(), finalGas, finalBrake) == Split(old(State()), outputGb, gasMax, brakeMax, fcw)
    {
      lastOutputGb := outputGb;
      finalGas := Clip(outputGb, 0.0, gasMax);
      finalBrake := -Clip(outputGb, -brakeMax, 0.0);
      if fcw {
        fcwCountdown := FcwCycles;
      }
      if fcwCountdown > 0 {
        fcwCountdown := fcwCountdown - 1;
        finalGas := 0.0;
        finalBrake := 1.0;
      }
    }
  }
}
