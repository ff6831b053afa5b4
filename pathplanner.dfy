/**
 * The lane-change arbiter of the path planner
 * (selfdrive/controls/lib/pathplanner.py): a four-state machine driven by
 * the blinkers, the driver's steering torque, the speed, the model's
 * lane-change probability and two timers; the desire lookup table; and the
 * counter that invalidates the plan after repeated bad solver solutions.
 */
module PathPlanning {
  import opened Common

  datatype LaneChangeState = Off | PreLaneChange | LaneChangeStarting | LaneChangeFinishing
  datatype LaneChangeDirection = NoDirection | Left | Right
  datatype Desire = NoDesire | LaneChangeLeft | LaneChangeRight

  const MphToMs: real := 0.44704
  /** Lane changes are not offered below 45 mph. */
  const LaneChangeMinSpeed: real := 45.0 * MphToMs
  /** The model period, 20 Hz. */
  const DtMdl: real := 0.05

  /** The DESIRES table: a desire only while a left/right change is starting or finishing. */
  function Desires(direction: LaneChangeDirection, state: LaneChangeState): Desire
  {
    match direction
    case NoDirection => NoDesire
    case Left =>
      (match state
       case Off => NoDesire
       case PreLaneChange => NoDesire
       case LaneChangeStarting => LaneChangeLeft
       case LaneChangeFinishing => LaneChangeLeft)
    case Right =>
      (match state
       case Off => NoDesire
       case PreLaneChange => NoDesire
       case LaneChangeStarting => LaneChangeRight
       case LaneChangeFinishing => LaneChangeRight)
  }

  lemma DesiresTable(direction: LaneChangeDirection, state: LaneChangeState)
    ensures var inChange := state == LaneChangeStarting || state == LaneChangeFinishing;
            (Desires(direction, state) == LaneChangeLeft <==> (direction == Left && inChange)) &&
            (Desires(direction, state) == LaneChangeRight <==> (direction == Right && inChange)) &&
            (Desires(direction, state) == NoDesire <==> (direction == NoDirection || !inChange))
  {
  }

  /** What one planner cycle reads from the car state, the car params and the lane model. */
  datatype LcInputs = LcInputs(active: bool, vEgo: real, leftBlinker: bool, rightBlinker: bool,
                               steeringTorque: real, steeringPressed: bool, autoLcaEnabled: bool,
                               laneChangeProb: real)

  /** The lane-change memory the planner keeps between cycles. */
  datatype LcMemory = LcMemory(state: LaneChangeState, timer: real, preAutoTimer: real, prevOneBlinker: bool)

  datatype LcStep = LcStep(memory: LcMemory, direction: LaneChangeDirection)

  predicate OneBlinker(x: LcInputs)
  {
    x.leftBlinker != x.rightBlinker
  }

  predicate Disengaged(m: LcMemory, x: LcInputs)
  {
    !x.active || m.timer > 10.0
  }

  function Direction(m: LcMemory, x: LcInputs): LaneChangeDirection
  {
    if Disengaged(m, x) then NoDirection
    else if x.leftBlinker then Left
    else if x.rightBlinker then Right
    else NoDirection
  }

  /** The window of the pre-lane-change timer in which automatic lane change counts as driver torque. */
  predicate AutoLcaWindow(m: LcMemory, x: LcInputs)
  {
    x.autoLcaEnabled && 2.0 < m.preAutoTimer < 3.0 && m.state == PreLaneChange
  }

  /** Driver torque in the blinker's direction (negative for right or none), or the automatic trigger. */
  predicate TorqueApplied(m: LcMemory, x: LcInputs)
  {
    var driver := if Direction(m, x) == Left then x.steeringTorque > 0.0 && x.steeringPressed
                  else x.steeringTorque < 0.0 && x.steeringPressed;
    driver || AutoLcaWindow(m, x)
  }

  /** The chained state transitions: at most one of them fires. */
  function Transition(m: LcMemory, x: LcInputs): LaneChangeState
  {
    var one := OneBlinker(x);
    if m.state == Off && one && !m.prevOneBlinker then PreLaneChange
    else if m.state == PreLaneChange && !one then Off
    else if m.state == PreLaneChange && TorqueApplied(m, x) then LaneChangeStarting
    else if m.state == LaneChangeStarting && x.laneChangeProb > 0.5 then LaneChangeFinishing
    else if m.state == LaneChangeFinishing && x.laneChangeProb < 0.2 then PreLaneChange
    else m.state
  }

  /** The state after the transitions and the 45 mph gate, before the timers. */
  function GatedState(m: LcMemory, x: LcInputs): LaneChangeState
  {
    if Disengaged(m, x) then Off
    else
      var s := Transition(m, x);
      if x.vEgo < LaneChangeMinSpeed && s == PreLaneChange then Off else s
  }

  /** One cycle of the lane-change logic of PathPlanner.update. */
  function LaneChangeStep(m: LcMemory, x: LcInputs): LcStep
  {
    var s := GatedState(m, x);
    var timer := if s == Off || s == PreLaneChange then 0.0 else m.timer + DtMdl;
    var s' := if s != Off && s != PreLaneChange && timer > 1.0 && x.steeringPressed then PreLaneChange else s;
    var preAuto := if s' == Off then 0.0 else m.preAutoTimer + DtMdl;
    LcStep(LcMemory(s', timer, preAuto, OneBlinker(x)), Direction(m, x))
  }

  /**
   * The invariant of the lane-change memory: the timers are never negative,
   * off holds both timers at zero, only off holds the pre timer at zero,
   * a change in progress has a running timer, and pre-lane-change has a
   * zero timer unless it was reached by a driver override after 1 s.
   */
  predicate MemoryValid(m: LcMemory)
  {
    m.timer >= 0.0 && m.preAutoTimer >= 0.0 &&
    (m.state == Off <==> m.preAutoTimer == 0.0) &&
    (m.state == Off ==> m.timer == 0.0) &&
    (m.state == LaneChangeStarting || m.state == LaneChangeFinishing ==> m.timer > 0.0) &&
    (m.state == PreLaneChange ==> m.timer == 0.0 || m.timer > 1.0)
  }

  lemma StepPreservesValid(m: LcMemory, x: LcInputs)
    requires MemoryValid(m)
    ensures MemoryValid(LaneChangeStep(m, x).memory)
  {
  }

  /** Inactive, or more than 10 s into a change: the state is off and there is no direction. */
  lemma DisengagedIsOff(m: LcMemory, x: LcInputs)
    requires !x.active || m.timer > 10.0
    ensures LaneChangeStep(m, x).memory.state == Off
    ensures LaneChangeStep(m, x).direction == NoDirection
    ensures LaneChangeStep(m, x).memory.timer == 0.0 && LaneChangeStep(m, x).memory.preAutoTimer == 0.0
  {
  }

  /** Off leaves only on a rising edge of "exactly one blinker", and then only to pre-lane-change. */
  lemma OffLeavesOnlyOnRisingEdge(m: LcMemory, x: LcInputs)
    requires m.state == Off
    ensures var r := LaneChangeStep(m, x).memory.state;
            (r != Off ==> r == PreLaneChange && OneBlinker(x) && !m.prevOneBlinker) &&
            (r == PreLaneChange <==>
               (x.active && m.timer <= 10.0 && OneBlinker(x) && !m.prevOneBlinker && x.vEgo >= LaneChangeMinSpeed))
  {
  }

  /**
   * From pre-lane-change (at or above 45 mph, engaged): back to off when the
   * single blinker is gone, otherwise to starting exactly when torque is
   * applied in the blinker's direction or the automatic trigger fires.
   */
  lemma PreLaneChangeTransitions(m: LcMemory, x: LcInputs)
    requires MemoryValid(m) && m.state == PreLaneChange && m.timer == 0.0
    requires x.active && x.vEgo >= LaneChangeMinSpeed
    ensures var r := LaneChangeStep(m, x).memory.state;
            (!OneBlinker(x) ==> r == Off) &&
            (OneBlinker(x) ==> (r == LaneChangeStarting <==> TorqueApplied(m, x))) &&
            (OneBlinker(x) && !TorqueApplied(m, x) ==> r == PreLaneChange)
  {
  }

  /** The driver's torque counts only in the blinker's direction: positive for left, negative otherwise. */
  lemma TorqueDirection(m: LcMemory, x: LcInputs)
    requires !AutoLcaWindow(m, x)
    ensures Direction(m, x) == Left ==> (TorqueApplied(m, x) <==> x.steeringTorque > 0.0 && x.steeringPressed)
    ensures Direction(m, x) != Left ==> (TorqueApplied(m, x) <==> x.steeringTorque < 0.0 && x.steeringPressed)
  {
  }

  /** Without the wheel pressed, torque is injected only by auto-LCA, in pre-lane-change, with 2 < timer < 3. */
  lemma AutoTorqueOnlyInWindow(m: LcMemory, x: LcInputs)
    requires !x.steeringPressed
    ensures TorqueApplied(m, x) <==>
            (x.autoLcaEnabled && m.state == PreLaneChange && 2.0 < m.preAutoTimer < 3.0)
  {
  }

  /**
   * Starting to finishing needs probability above 0.5, finishing to pre
   * needs it below 0.2, and the chain moves at most one step per cycle.
   */
  lemma ChainedTransitionsOneStep(m: LcMemory, x: LcInputs)
    ensures m.state == LaneChangeStarting ==>
              (Transition(m, x) == LaneChangeFinishing <==> x.laneChangeProb > 0.5) &&
              (Transition(m, x) == LaneChangeStarting || Transition(m, x) == LaneChangeFinishing)
    ensures m.state == LaneChangeFinishing ==>
              (Transition(m, x) == PreLaneChange <==> x.laneChangeProb < 0.2) &&
              (Transition(m, x) == LaneChangeFinishing || Transition(m, x) == PreLaneChange)
    ensures m.state == Off ==> Transition(m, x) == Off || Transition(m, x) == PreLaneChange
    ensures m.state == PreLaneChange ==> Transition(m, x) != LaneChangeFinishing
  {
  }

  /**
   * Below 45 mph the gate forces a resulting pre-lane-change to off: the
   * state can be pre-lane-change after the cycle only through the driver
   * override of a change in progress.
   */
  lemma SpeedGate(m: LcMemory, x: LcInputs)
    requires x.vEgo < LaneChangeMinSpeed
    ensures var r := LaneChangeStep(m, x).memory;
            r.state == PreLaneChange ==> x.steeringPressed && r.timer > 1.0
    ensures m.state == Off ==> LaneChangeStep(m, x).memory.state == Off
  {
  }

  /**
   * The timer is zero in off and pre-lane-change and otherwise grows by
   * DT_MDL; past 1 s with the wheel pressed the change is dropped back to
   * pre-lane-change.
   */
  lemma TimerRule(m: LcMemory, x: LcInputs)
    ensures var s := GatedState(m, x);
            var r := LaneChangeStep(m, x).memory;
            (s == Off || s == PreLaneChange ==> r.timer == 0.0 && r.state == s) &&
            (s != Off && s != PreLaneChange ==>
               r.timer == m.timer + DtMdl &&
               (r.state == PreLaneChange <==> (m.timer + DtMdl > 1.0 && x.steeringPressed)) &&
               (r.state != PreLaneChange ==> r.state == s))
  {
  }

  /** The lane-change memory after a sequence of cycles. */
  function MemoryAfter(m0: LcMemory, xs: seq<LcInputs>): LcMemory
  {
    if xs == [] then m0 else LaneChangeStep(MemoryAfter(m0, xs[..|xs| - 1]), xs[|xs| - 1]).memory
  }

  /** Starting from off, a drive that stays below 45 mph never leaves off. */
  lemma {:induction false} SlowDriveStaysOff(m0: LcMemory, xs: seq<LcInputs>)
    requires m0.state == Off
    requires forall i :: 0 <= i < |xs| ==> xs[i].vEgo < LaneChangeMinSpeed
    ensures MemoryAfter(m0, xs).state == Off
  {
    if xs != [] {
      var p := xs[..|xs| - 1];
      SlowDriveStaysOff(m0, p);
      SpeedGate(MemoryAfter(m0, p), xs[|xs| - 1]);
    }
  }

  /** The consecutive-invalid-solution counter after one cycle. */
  function InvalidCountStep(count: nat, invalid: bool): nat
  {
    if invalid then count + 1 else 0
  }

  /** A solution is invalid when its cost exceeds 20000 or it contains a NaN. */
  predicate SolutionInvalid(cost: real, nans: bool)
  {
    cost > 20000.0 || nans
  }

  /** The counter after a history of cycles, from a fresh planner. */
  function InvalidCountAfter(invalid: seq<bool>): nat
  {
    if invalid == [] then 0 else InvalidCountStep(InvalidCountAfter(invalid[..|invalid| - 1]), invalid[|invalid| - 1])
  }

  lemma InvalidCountPositive(invalid: seq<bool>)
    ensures InvalidCountAfter(invalid) > 0 <==> |invalid| > 0 && invalid[|invalid| - 1]
  {
  }

  /** The plan is valid exactly when the last two solutions were not both invalid. */
  lemma {:induction false} PlanValidIff(invalid: seq<bool>)
    ensures var n := |invalid|;
            InvalidCountAfter(invalid) < 2 <==> !(n >= 2 && invalid[n - 1] && invalid[n - 2])
  {
    var n := |invalid|;
    if n > 0 {
      var p := invalid[..n - 1];
      InvalidCountPositive(p);
      if n >= 2 {
        assert p[|p| - 1] == invalid[n - 2];
      }
    }
  }

  class PathPlanner {
    var laneChangeState: LaneChangeState
    var laneChangeTimer: real
    var preAutoLcaTimer: real
    var prevOneBlinker: bool
    var solutionInvalidCnt: nat

    function Memory(): LcMemory
      reads this
    {
      LcMemory(laneChangeState, laneChangeTimer, preAutoLcaTimer, prevOneBlinker)
    }

    ghost predicate Valid()
      reads this
    {
      MemoryValid(Memory())
    }

    constructor ()
      ensures Valid()
      ensures laneChangeState == Off && laneChangeTimer == 0.0 && preAutoLcaTimer == 0.0
      ensures !prevOneBlinker && solutionInvalidCnt == 0
    {
      laneChangeState := Off;
      laneChangeTimer := 0.0;
      preAutoLcaTimer := 0.0;
      prevOneBlinker := false;
      solutionInvalidCnt := 0;
    }

    /** The transitions and the 45 mph gate of PathPlanner.update, and the blinker direction. */
    method Transitions(x: LcInputs) returns (direction: LaneChangeDirection)
      modifies this
      ensures laneChangeState == GatedState(old(Memory()), x)
      ensures direction == Direction(old(Memory()), x)
      ensures laneChangeTimer == old(laneChangeTimer) && preAutoLcaTimer == old(preAutoLcaTimer)
      ensures prevOneBlinker == old(prevOneBlinker) && solutionInvalidCnt == old(solutionInvalidCnt)
    {
      direction := NoDirection;
      var oneBlinker := x.leftBlinker != x.rightBlinker;

      if !x.active || laneChangeTimer > 10.0 {
        laneChangeState := Off;
      } else {
        if x.leftBlinker {
          direction := Left;
        } else if x.rightBlinker {
          direction := Right;
        }

        var torqueApplied;
        if direction == Left {
          torqueApplied := x.steeringTorque > 0.0 && x.steeringPressed;
        } else {
          torqueApplied := x.steeringTorque < 0.0 && x.steeringPressed;
        }
        if x.autoLcaEnabled && 3.0 > preAutoLcaTimer > 2.0 && laneChangeState == PreLaneChange {
          torqueApplied := true;
        }

        if laneChangeState == Off && oneBlinker && !prevOneBlinker {
          laneChangeState := PreLaneChange;
        } else if laneChangeState == PreLaneChange && !oneBlinker {
          laneChangeState := Off;
        } else if laneChangeState == PreLaneChange && torqueApplied {
          laneChangeState := LaneChangeStarting;
        } else if laneChangeState == LaneChangeStarting && x.laneChangeProb > 0.5 {
          laneChangeState := LaneChangeFinishing;
        } else if laneChangeState == LaneChangeFinishing && x.laneChangeProb < 0.2 {
          laneChangeState := PreLaneChange;
        }

        if x.vEgo < LaneChangeMinSpeed && laneChangeState == PreLaneChange {
          laneChangeState := Off;
        }
      }
    }

    /**
     * The lane-change and validity logic of PathPlanner.update: steps the
     * state machine and its timers, looks up the desire, and counts invalid
     * solver solutions (cost above 20000 or NaN).
     */
    method Update(x: LcInputs, solutionCost: real, solutionNans: bool)
      returns (desire: Desire, direction: LaneChangeDirection, planValid: bool)
      requires Valid()
      modifies this
      ensures Valid()
      ensures Memory() == LaneChangeStep(old(Memory()), x).memory
      ensures direction == LaneChangeStep(old(Memory()), x).direction
      ensures desire == Desires(direction, laneChangeState)
      ensures solutionInvalidCnt == InvalidCountStep(old(solutionInvalidCnt), SolutionInvalid(solutionCost, solutionNans))
      ensures planValid <==> solutionInvalidCnt < 2
    {
      ghost var m := Memory();
      direction := Transitions(x);
      if laneChangeState == Off || laneChangeState == PreLaneChange {
        laneChangeTimer := 0.0;
      } else {
        laneChangeTimer := laneChangeTimer + DtMdl;
        if laneChangeTimer > 1.0 && x.steeringPressed {
          laneChangeState := PreLaneChange;
        }
      }

      if laneChangeState == Off {
        preAutoLcaTimer := 0.0;
      } else {
        preAutoLcaTimer := preAutoLcaTimer + DtMdl;
      }

      prevOneBlinker := x.leftBlinker != x.rightBlinker;
      desire := Desires(direction, laneChangeState);

      if solutionCost > 20000.0 || solutionNans {
        solutionInvalidCnt := solutionInvalidCnt + 1;
      } else {
        solutionInvalidCnt := 0;
      }
      planValid := solutionInvalidCnt < 2;
      StepPreservesValid(m, x);
    }
  }
}
